/**
 * The Ordinal TDE ensemble: a search over the parameter grid that fits one
 * member per candidate on a subsample of the cases, scores it by its
 * leave-one-out mean absolute error and keeps a bounded pool of the best
 * members, each weighted by its error.
 */
module Ensemble {
  import opened Common
  import opened Bags
  import opened ParameterSpace
  import opened Sfa
  import opened Member
  import opened Votes

  /**
   * The running worst of `_worst_ensemble_mae` over `maes`: it starts at
   * `(0.0, 0)` and moves only on a strictly larger error, so it is the first
   * position of the largest error, or `(0.0, 0)` when no error exceeds 0.
   */
  function Worst(maes: seq<real>): (r: (real, nat))
    ensures r.0 >= 0.0
    ensures forall k :: 0 <= k < |maes| ==> maes[k] <= r.0
    ensures r.0 > 0.0 ==> r.1 < |maes| && maes[r.1] == r.0
    ensures r.0 > 0.0 ==> forall k :: 0 <= k < r.1 ==> maes[k] < r.0
    ensures r.0 == 0.0 ==> r.1 == 0
  {
    if maes == [] then (0.0, 0)
    else
      var w := Worst(maes[..|maes| - 1]);
      if maes[|maes| - 1] > w.0 then (maes[|maes| - 1], |maes| - 1) else w
  }

  /** Appending one error moves the running worst only when the new error is strictly larger. */
  lemma WorstAppend(maes: seq<real>, m: real)
    ensures Worst(maes + [m]) == if m > Worst(maes).0 then (m, |maes|) else Worst(maes)
  {
    assert (maes + [m])[..|maes|] == maes;
  }

  /** `math.pow(w, n)` for a whole exponent. */
  function Pow(w: real, n: nat): real
  {
    if n == 0 then 1.0 else w * Pow(w, n - 1)
  }

  /** The weight formula `(1 / (1 + |mae|))^4`, with the fallback for a negative base. */
  function MemberWeight(mae: real): real
  {
    var w := 1.0 / (1.0 + AbsReal(mae));
    if w >= 0.0 then Pow(w, 4) else 0.000000001
  }

  lemma ScaleLess(c: real, x: real, y: real)
    requires c > 0.0 && x < y
    ensures c * x < c * y
  {
    assert c * y - c * x == c * (y - x);
    PositiveProduct(c, y - x);
  }

  lemma LessScale(c: real, x: real, y: real)
    requires c > 0.0 && x < y
    ensures x * c < y * c
  {
    assert y * c - x * c == (y - x) * c;
    PositiveProduct(y - x, c);
  }

  lemma ProductLess(a: real, b: real, pa: real, pb: real)
    requires 0.0 < a < b && 0.0 < pa <= pb
    ensures a * pa < b * pb
  {
    LessScale(pa, a, b);
    if pa < pb {
      ScaleLess(b, pa, pb);
    }
  }

  /** A positive base has a positive power, at most 1 when the base is. */
  lemma {:induction false} PowBounds(w: real, n: nat)
    requires 0.0 < w
    ensures Pow(w, n) > 0.0
    ensures w <= 1.0 ==> Pow(w, n) <= 1.0
  {
    if n > 0 {
      PowBounds(w, n - 1);
      var p := Pow(w, n - 1);
      PositiveProduct(w, p);
      if w < 1.0 {
        ScaleLess(p, w, 1.0);
        assert p * w == w * p;
      }
    }
  }

  /** A power with a positive exponent grows strictly with a positive base. */
  lemma {:induction false} PowMonotone(a: real, b: real, n: nat)
    requires 0.0 < a < b && n >= 1
    ensures Pow(a, n) < Pow(b, n)
  {
    PowBounds(a, n - 1);
    if n > 1 {
      PowMonotone(a, b, n - 1);
    }
    ProductLess(a, b, Pow(a, n - 1), Pow(b, n - 1));
  }

  /**
   * Every weight lies in (0, 1]: the base `1 / (1 + |mae|)` is never
   * negative, so the fallback weight is never used.
   */
  lemma MemberWeightBounds(mae: real)
    ensures 0.0 < MemberWeight(mae) <= 1.0
    ensures MemberWeight(mae) == Pow(1.0 / (1.0 + AbsReal(mae)), 4)
  {
    var w := 1.0 / (1.0 + AbsReal(mae));
    assert 0.0 < w <= 1.0;
    PowBounds(w, 4);
  }

  /** A larger error gives a strictly smaller weight; an error of 0 gives weight 1. */
  lemma MemberWeightDecreasing(a: real, b: real)
    requires 0.0 <= a < b
    ensures MemberWeight(b) < MemberWeight(a)
    ensures MemberWeight(0.0) == 1.0
  {
    var wa, wb := 1.0 / (1.0 + a), 1.0 / (1.0 + b);
    assert wb < wa by {
      assert wb * (1.0 + b) == 1.0;
      assert wa * (1.0 + a) == 1.0;
      assert wb * (1.0 + a) < wb * (1.0 + b);
    }
    assert wb > 0.0;
    PowMonotone(wb, wa, 4);
  }

  /** The leave-one-out mean absolute error of the first `trainSize` cases. */
  ghost function TrainMae(bags: seq<Bag>, truth: seq<int>, labels: seq<int>, trainSize: nat): real
    requires |bags| >= 2 && 1 <= trainSize <= |bags| && trainSize <= |truth| && |bags| <= |labels|
  {
    LooErrorSum(bags, truth, labels, trainSize) as real / trainSize as real
  }

  /** One more case adds its own error and its own prediction. */
  lemma LooStep(bags: seq<Bag>, truth: seq<int>, labels: seq<int>, i: nat)
    requires |bags| >= 2 && i < |bags| && i < |truth| && |bags| <= |labels|
    ensures LooErrorSum(bags, truth, labels, i + 1) ==
      LooErrorSum(bags, truth, labels, i) + Abs(truth[i] - labels[LooNeighbour(bags, i)])
    ensures LooPredictions(bags, labels, i + 1) ==
      LooPredictions(bags, labels, i) + [labels[LooNeighbour(bags, i)]]
  {
    assert LooPredictions(bags, labels, i + 1) ==
      LooPredictions(bags, labels, i) + [labels[LooNeighbour(bags, i)]];
  }

  /** Every leave-one-out prediction is one of the labels. */
  lemma LooPredictionsFromLabels(bags: seq<Bag>, labels: seq<int>, m: nat)
    requires |bags| >= 2 && m <= |bags| && |bags| <= |labels|
    ensures forall i :: 0 <= i < m ==> LooPredictions(bags, labels, m)[i] in labels
  {
    forall i | 0 <= i < m
      ensures LooPredictions(bags, labels, m)[i] in labels
    {
      assert LooPredictions(bags, labels, m)[i] == labels[LooNeighbour(bags, i)];
    }
  }

  /** The early reject of `_individual_train_mae`: an error above the threshold becomes 100. */
  function Capped(mae: real, threshold: real): real
  {
    if mae > threshold then 100.0 else mae
  }

  /**
   * A capped error is the error itself or 100: it is the error exactly when
   * the error is within the threshold, and with a threshold of at most 100 a
   * non-negative error stays within [0, 100].
   */
  lemma CappedFacts(mae: real, threshold: real)
    ensures Capped(mae, threshold) == mae <==> mae <= threshold || mae == 100.0
    ensures 0.0 <= mae && threshold <= 100.0 ==> 0.0 <= Capped(mae, threshold) <= 100.0
    ensures Capped(mae, threshold) <= threshold || Capped(mae, threshold) == 100.0
  {
  }

  /** The summed absolute error of the first `m` predictions. */
  function AbsErrorSum(truth: seq<int>, preds: seq<int>, m: nat): nat
    requires m <= |truth| && m <= |preds|
  {
    if m == 0 then 0 else AbsErrorSum(truth, preds, m - 1) + Abs(truth[m - 1] - preds[m - 1])
  }

  /** A summed absolute error is 0 exactly when every prediction is right. */
  lemma {:induction false} AbsErrorSumZero(truth: seq<int>, preds: seq<int>, m: nat)
    requires m <= |truth| && m <= |preds|
    ensures AbsErrorSum(truth, preds, m) == 0 <==> forall i :: 0 <= i < m ==> preds[i] == truth[i]
  {
    if m > 0 {
      AbsErrorSumZero(truth, preds, m - 1);
      if AbsErrorSum(truth, preds, m - 1) != 0 {
        var i :| 0 <= i < m - 1 && preds[i] != truth[i];
      }
    }
  }

  /** The leave-one-out error sum is the summed error of the leave-one-out predictions. */
  lemma {:induction false} LooErrorSumIsAbsErrorSum(bags: seq<Bag>, truth: seq<int>, labels: seq<int>, m: nat)
    requires |bags| >= 2 && m <= |bags| && m <= |truth| && |bags| <= |labels|
    ensures LooErrorSum(bags, truth, labels, m) == AbsErrorSum(truth, LooPredictions(bags, labels, |bags|), m)
  {
    if m > 0 {
      LooErrorSumIsAbsErrorSum(bags, truth, labels, m - 1);
      assert LooPredictions(bags, labels, |bags|)[m - 1] == LooLabel(bags, labels, m - 1);
    }
  }

  /** The leave-one-out error sum is 0 exactly when every leave-one-out prediction is right. */
  lemma LooErrorSumZero(bags: seq<Bag>, truth: seq<int>, labels: seq<int>, m: nat)
    requires |bags| >= 2 && m <= |bags| && m <= |truth| && |bags| <= |labels|
    ensures LooErrorSum(bags, truth, labels, m) == 0 <==>
      forall i :: 0 <= i < m ==> LooPredictions(bags, labels, m)[i] == truth[i]
  {
    var all, cur := LooPredictions(bags, labels, |bags|), LooPredictions(bags, labels, m);
    LooErrorSumIsAbsErrorSum(bags, truth, labels, m);
    AbsErrorSumZero(truth, all, m);
    assert forall i :: 0 <= i < m ==> cur[i] == all[i];
  }

  /**
   * A training error of 0 means every case of the training subsample is
   * predicted right by its leave-one-out neighbour, and conversely.
   */
  lemma TrainMaeZero(bags: seq<Bag>, truth: seq<int>, labels: seq<int>, trainSize: nat)
    requires |bags| >= 2 && 1 <= trainSize <= |bags| && trainSize <= |truth| && |bags| <= |labels|
    ensures TrainMae(bags, truth, labels, trainSize) >= 0.0
    ensures TrainMae(bags, truth, labels, trainSize) == 0.0 <==>
      forall i :: 0 <= i < trainSize ==> LooPredictions(bags, labels, trainSize)[i] == truth[i]
  {
    LooErrorSumZero(bags, truth, labels, trainSize);
    var n := LooErrorSum(bags, truth, labels, trainSize);
    if n == 0 {
      assert TrainMae(bags, truth, labels, trainSize) == 0.0 / trainSize as real == 0.0;
    } else {
      PositiveQuotient(n as real, trainSize as real);
    }
  }

  lemma PositiveQuotient(a: real, b: real)
    requires a > 0.0 && b > 0.0
    ensures a / b > 0.0
  {
  }

  /**
   * The choices the search takes from outside: the wall clock, the random
   * generator and the surrogate model. `elapsed(k)` is the time in seconds
   * since the search started, read after its k-th iteration.
   */
  datatype SearchOracles = SearchOracles(
    elapsed: nat -> real,
    randomPick: (nat, nat) -> nat,
    surrogatePick: (seq<Params>, seq<real>, seq<Params>) -> nat,
    subsample: nat -> seq<nat>,
    memberChoice: nat -> Sampler,
    sfa: SfaTransform)

  /**
   * What the search relies on of its oracles: time never runs backwards
   * from 0, `rng.randint(0, n)` is below `n`, the surrogate picks a position
   * of the remaining pool, every subsample has `size` distinct cases, every
   * member draws without replacement and the transform honours its contract.
   */
  ghost predicate ValidOracles(o: SearchOracles, nCases: nat, size: nat)
  {
    (forall k :: o.elapsed(k) >= 0.0)
    && PicksInRange(o)
    && (forall k :: IsSample(o.subsample(k), nCases, size))
    && (forall k :: SamplesWithoutReplacement(o.memberChoice(k)))
    && Honours(o.sfa)
  }

  /** Both ways of picking a candidate pick a position of the remaining pool. */
  ghost predicate PicksInRange(o: SearchOracles)
  {
    (forall k, n :: n > 0 ==> o.randomPick(k, n) < n)
    && (forall prevX, prevY, pool :: pool != [] ==> o.surrogatePick(prevX, prevY, pool) < |pool|)
  }

  /** `int(n_cases * 0.7)`, the size of every member's training subsample. */
  function SubsampleSize(nCases: nat): (size: nat)
    ensures size <= nCases
    ensures nCases >= 3 ==> size >= 2
  {
    Trunc(nCases as real * 0.7)
  }

  /**
   * What an ensemble keeps of a member: fitted on a subsample of the
   * `nCases` cases with the ensemble's channel count, predicting only known
   * classes, with an error in [0, 100].
   */
  ghost predicate MemberReady(e: IndividualOrdinalTde, nChannels: nat, nCases: nat, classes: seq<int>)
    reads e
  {
    e.Fitted() && e.nChannels == nChannels
    && (forall j :: 0 <= j < |e.classVals| ==> e.classVals[j] in classes)
    && IsSample(e.subsample, nCases, |e.transformedData|)
    && 0.0 <= e.mae <= 100.0
    && |e.trainPredictions| <= |e.subsample|
    && (forall j :: 0 <= j < |e.trainPredictions| ==> e.trainPredictions[j] in classes)
  }

  lemma ReadyIntro(e: IndividualOrdinalTde, nChannels: nat, nCases: nat, classes: seq<int>)
    requires e.Fitted() && e.nChannels == nChannels
    requires forall j :: 0 <= j < |e.classVals| ==> e.classVals[j] in classes
    requires IsSample(e.subsample, nCases, |e.transformedData|)
    requires 0.0 <= e.mae <= 100.0
    requires |e.trainPredictions| <= |e.subsample|
    requires forall j :: 0 <= j < |e.trainPredictions| ==> e.trainPredictions[j] in e.classVals
    ensures MemberReady(e, nChannels, nCases, classes)
  {
  }

  /** The leave-one-out errors of the members `es`, in order. */
  ghost function MaesOf(es: seq<IndividualOrdinalTde>): (r: seq<real>)
    reads es
    ensures |r| == |es|
    ensures forall k :: 0 <= k < |r| ==> r[k] == es[k].mae
  {
    seq(|es|, k reads es requires 0 <= k < |es| => es[k].mae)
  }

  /** The candidates of the members `es`, in order. */
  function ParamsOf(es: seq<IndividualOrdinalTde>): (r: seq<Params>)
    ensures |r| == |es|
    ensures forall k :: 0 <= k < |r| ==> r[k] == es[k].params
  {
    seq(|es|, k requires 0 <= k < |es| => es[k].params)
  }

  /** Members and weights in parallel, each member ready and each weight that of its member's error. */
  ghost predicate Ready(es: seq<IndividualOrdinalTde>, ws: seq<real>, nChannels: nat, nCases: nat, classes: seq<int>)
    reads es
  {
    |es| == |ws|
    && (forall k :: 0 <= k < |es| ==> MemberReady(es[k], nChannels, nCases, classes))
    && (forall k :: 0 <= k < |es| ==> ws[k] == MemberWeight(es[k].mae))
  }

  /** Admitting a ready member with its weight keeps the ensemble ready and moves errors and candidates alike. */
  lemma AdmitReady(es: seq<IndividualOrdinalTde>, ws: seq<real>, nChannels: nat, nCases: nat, classes: seq<int>,
                   tde: IndividualOrdinalTde, weight: real, full: bool, better: bool, idx: nat)
    requires Ready(es, ws, nChannels, nCases, classes) == true && (full && better ==> idx < |es|)
    requires MemberReady(tde, nChannels, nCases, classes) == true && weight == MemberWeight(tde.mae)
    ensures Ready(Admit(es, tde, full, better, idx), Admit(ws, weight, full, better, idx), nChannels, nCases, classes)
    ensures MaesOf(Admit(es, tde, full, better, idx)) == Admit(MaesOf(es), tde.mae, full, better, idx)
    ensures ParamsOf(Admit(es, tde, full, better, idx)) == Admit(ParamsOf(es), tde.params, full, better, idx)
  {
  }

  /** Readiness and errors depend on the members' own fields only. */
  twostate lemma ReadyKept(es: seq<IndividualOrdinalTde>, new ws: seq<real>, new nChannels: nat, new nCases: nat, new classes: seq<int>)
    requires old(Ready(es, ws, nChannels, nCases, classes)) == true
    requires forall k :: 0 <= k < |es| ==> unchanged(es[k])
    ensures Ready(es, ws, nChannels, nCases, classes)
    ensures MaesOf(es) == old(MaesOf(es))
  {
    forall k | 0 <= k < |es|
      ensures MemberReady(es[k], nChannels, nCases, classes)
    {
      assert old(MemberReady(es[k], nChannels, nCases, classes));
    }
  }

  /**
   * Admitting a member that was ready at the start, when no member has
   * changed since, leaves a ready ensemble whose errors follow the update.
   */
  twostate lemma AdmitKept(es: seq<IndividualOrdinalTde>, new tde: IndividualOrdinalTde, new ws: seq<real>, new weight: real,
                           new nChannels: nat, new nCases: nat, new classes: seq<int>,
                           new full: bool, new better: bool, new idx: nat)
    requires old(allocated(tde))
    requires old(Ready(es, ws, nChannels, nCases, classes)) == true && (full && better ==> idx < |es|)
    requires old(MemberReady(tde, nChannels, nCases, classes)) == true && weight == MemberWeight(old(tde.mae))
    requires unchanged(tde) && forall k :: 0 <= k < |es| ==> unchanged(es[k])
    ensures Ready(Admit(es, tde, full, better, idx), Admit(ws, weight, full, better, idx), nChannels, nCases, classes)
    ensures MaesOf(Admit(es, tde, full, better, idx)) == Admit(old(MaesOf(es)), tde.mae, full, better, idx)
    ensures ParamsOf(Admit(es, tde, full, better, idx)) == Admit(ParamsOf(es), tde.params, full, better, idx)
  {
    ReadyKept(es, ws, nChannels, nCases, classes);
    assert MemberReady(tde, nChannels, nCases, classes);
    AdmitReady(es, ws, nChannels, nCases, classes, tde, weight, full, better, idx);
  }

  /**
   * How `_fit` scores a member against `threshold`: fitted on the labels
   * `y` of its subsample, its error the capped leave-one-out MAE over its
   * whole subsample, and its leave-one-out predictions kept exactly when
   * `keep`.
   */
  ghost predicate ScoredWith(e: IndividualOrdinalTde, y: seq<int>, keep: bool, threshold: real)
    reads e
  {
    2 <= |e.transformedData| == |e.subsample|
    && (forall j :: 0 <= j < |e.subsample| ==> e.subsample[j] < |y|)
    && e.classVals == Select(y, e.subsample)
    && e.mae == Capped(TrainMae(e.transformedData, e.classVals, e.classVals, |e.subsample|), threshold)
    && e.trainPredictions == (if keep then LooPredictions(e.transformedData, e.classVals, |e.subsample|) else [])
  }

  /** Every member of `es` scored as against the cap of 100. */
  ghost predicate Scored(es: seq<IndividualOrdinalTde>, y: seq<int>, keep: bool)
    reads es
  {
    forall k :: 0 <= k < |es| ==> ScoredWith(es[k], y, keep, 100.0)
  }

  /**
   * The search scores a member against 100 while the pool is not `full` and
   * against the running worst once it is. Every member the pool admits
   * scores as it would have against 100: once full it is admitted only
   * strictly below the running worst, itself at most 100, so the early
   * reject did not strike.
   */
  lemma AdmitScored(es: seq<IndividualOrdinalTde>, tde: IndividualOrdinalTde, y: seq<int>, keep: bool,
                    full: bool, highestMae: real, idx: nat, threshold: real)
    requires Scored(es, y, keep) && highestMae <= 100.0
    requires full && tde.mae < highestMae ==> idx < |es|
    requires threshold == (if full then highestMae else 100.0) && ScoredWith(tde, y, keep, threshold)
    ensures Scored(Admit(es, tde, full, tde.mae < highestMae, idx), y, keep)
  {
    var better := tde.mae < highestMae;
    if full && better {
      var bags, labels, m := tde.transformedData, tde.classVals, |tde.subsample|;
      CappedFacts(TrainMae(bags, labels, labels, m), highestMae);
      assert ScoredWith(tde, y, keep, 100.0);
    }
  }

  /** `AdmitScored` across a step that changed neither the members nor the candidate. */
  twostate lemma AdmitScoredKept(es: seq<IndividualOrdinalTde>, new tde: IndividualOrdinalTde, new y: seq<int>,
                                 new keep: bool, new full: bool, new highestMae: real, new idx: nat, new threshold: real)
    requires old(allocated(tde)) && threshold == (if full then highestMae else 100.0)
    requires old(Scored(es, y, keep)) && old(ScoredWith(tde, y, keep, threshold))
    requires unchanged(tde) && forall k :: 0 <= k < |es| ==> unchanged(es[k])
    requires highestMae <= 100.0 && (full && tde.mae < highestMae ==> idx < |es|)
    ensures Scored(Admit(es, tde, full, tde.mae < highestMae, idx), y, keep)
  {
    forall k | 0 <= k < |es|
      ensures ScoredWith(es[k], y, keep, 100.0)
    {
      assert old(ScoredWith(es[k], y, keep, 100.0));
    }
    assert ScoredWith(tde, y, keep, threshold);
    AdmitScored(es, tde, y, keep, full, highestMae, idx, threshold);
  }

  /** The candidates evaluated so far and those left make up the grid. */
  ghost predicate History(grid: seq<Params>, pool: seq<Params>, prevX: seq<Params>)
  {
    multiset(prevX) + multiset(pool) == multiset(grid)
  }

  /** Popping a candidate into the history keeps the grid split between the two. */
  lemma HistoryStep(grid: seq<Params>, pool: seq<Params>, prevX: seq<Params>, i: nat)
    requires History(grid, pool, prevX) && i < |pool|
    ensures History(grid, RemoveAt(pool, i), prevX + [pool[i]])
  {
    assert multiset(prevX + [pool[i]]) == multiset(prevX) + multiset{pool[i]};
  }

  /**
   * The ensemble against the history of `|prevX|` evaluated candidates:
   * member `k` (candidate `params[k]`, error `maes[k]`) is history entry
   * `slots[k]`, and entry `k` itself while the ensemble is filling; the
   * running worst is that of the members; and every history entry outside
   * the ensemble has an error at least the running worst.
   */
  ghost predicate Tracked(prevX: seq<Params>, prevY: seq<real>, params: seq<Params>, maes: seq<real>,
                          slots: seq<nat>, highestMae: real, highestMaeIdx: nat, maxSize: nat)
  {
    |prevX| == |prevY|
    && |params| == |slots| && |maes| == |slots| && |slots| == Min(|prevX|, maxSize)
    && (highestMae, highestMaeIdx) == Worst(maes)
    && Distinct(slots)
    && (forall k :: 0 <= k < |slots| ==>
          (slots[k] < |prevX| && prevX[slots[k]] == params[k] && prevY[slots[k]] == maes[k]))
    && (|prevX| <= maxSize ==> forall k :: 0 <= k < |slots| ==> slots[k] == k)
    && (forall j :: 0 <= j < |prevY| && j !in slots ==> highestMae <= prevY[j])
  }

  /** While the ensemble is filling, the new candidate joins it. */
  lemma TrackedAppend(prevX: seq<Params>, prevY: seq<real>, params: seq<Params>, maes: seq<real>,
                      slots: seq<nat>, highestMae: real, highestMaeIdx: nat, maxSize: nat, p: Params, m: real)
    requires Tracked(prevX, prevY, params, maes, slots, highestMae, highestMaeIdx, maxSize)
    requires |prevX| < maxSize
    ensures var w := Worst(maes + [m]);
      Tracked(prevX + [p], prevY + [m], params + [p], maes + [m], slots + [|prevX|], w.0, w.1, maxSize)
  {
    var newSlots := slots + [|prevX|];
    forall j | 0 <= j < |prevY| + 1
      ensures j in newSlots
    {
      assert newSlots[j] == j;
    }
  }

  /**
   * Once the ensemble is full, a candidate with an error strictly below the
   * running worst replaces the worst member, and the running worst does not
   * grow.
   */
  lemma TrackedReplace(prevX: seq<Params>, prevY: seq<real>, params: seq<Params>, maes: seq<real>,
                       slots: seq<nat>, highestMae: real, highestMaeIdx: nat, maxSize: nat, p: Params, m: real)
    requires Tracked(prevX, prevY, params, maes, slots, highestMae, highestMaeIdx, maxSize)
    requires |prevX| >= maxSize && 0.0 <= m < highestMae
    ensures highestMaeIdx < |maes|
    ensures var w := Worst(maes[highestMaeIdx := m]);
      w.0 <= highestMae
      && Tracked(prevX + [p], prevY + [m], params[highestMaeIdx := p], maes[highestMaeIdx := m],
                 slots[highestMaeIdx := |prevX|], w.0, w.1, maxSize)
  {
    var idx := highestMaeIdx;
    var newMaes, newSlots := maes[idx := m], slots[idx := |prevX|];
    var w := Worst(newMaes);
    assert forall k :: 0 <= k < |newMaes| ==> newMaes[k] <= highestMae;
    assert w.0 <= highestMae;
    assert forall k :: 0 <= k < |slots| && k != idx ==> newSlots[k] == slots[k];
    forall j | 0 <= j < |prevY| + 1 && j !in newSlots
      ensures w.0 <= (prevY + [m])[j]
    {
      assert newSlots[idx] == |prevY|;
      if j !in slots {
        assert (prevY + [m])[j] == prevY[j];
      } else {
        var k :| 0 <= k < |slots| && slots[k] == j;
        assert (prevY + [m])[j] == maes[idx];
      }
    }
  }

  /** Once the ensemble is full, a candidate no better than the running worst is only recorded. */
  lemma TrackedReject(prevX: seq<Params>, prevY: seq<real>, params: seq<Params>, maes: seq<real>,
                      slots: seq<nat>, highestMae: real, highestMaeIdx: nat, maxSize: nat, p: Params, m: real)
    requires Tracked(prevX, prevY, params, maes, slots, highestMae, highestMaeIdx, maxSize)
    requires |prevX| >= maxSize && m >= highestMae
    ensures Tracked(prevX + [p], prevY + [m], params, maes, slots, highestMae, highestMaeIdx, maxSize)
  {
  }

  /**
   * The ensemble keeps the best of the history through `slots`: member `k`
   * is the distinct history entry `slots[k]`, with that entry's candidate
   * and error, and every entry left out has an error no lower than any
   * member's.
   */
  ghost predicate KeptBy(prevX: seq<Params>, prevY: seq<real>, params: seq<Params>, maes: seq<real>, slots: seq<nat>)
  {
    |slots| == |params| == |maes| && Distinct(slots)
    && (forall k :: 0 <= k < |slots| ==>
          (slots[k] < |prevX| && slots[k] < |prevY| && prevX[slots[k]] == params[k] && prevY[slots[k]] == maes[k]))
    && (forall j, k :: 0 <= j < |prevY| && j !in slots && 0 <= k < |maes| ==> maes[k] <= prevY[j])
  }

  /** Some choice of history entries shows that the ensemble keeps the best of the history. */
  ghost predicate KeepsBest(prevX: seq<Params>, prevY: seq<real>, params: seq<Params>, maes: seq<real>)
  {
    exists slots :: KeptBy(prevX, prevY, params, maes, slots)
  }

  /** A tracked ensemble keeps the best of its history. */
  lemma TrackedKeepsBest(prevX: seq<Params>, prevY: seq<real>, params: seq<Params>, maes: seq<real>,
                         slots: seq<nat>, highestMae: real, highestMaeIdx: nat, maxSize: nat)
    requires Tracked(prevX, prevY, params, maes, slots, highestMae, highestMaeIdx, maxSize)
    ensures KeepsBest(prevX, prevY, params, maes)
  {
    assert KeptBy(prevX, prevY, params, maes, slots);
  }

  /**
   * What a search leaves behind: every evaluated candidate comes from the
   * grid and none twice, each has its error recorded, the ensemble holds
   * `min(evaluated, maxSize)` members and keeps the best of the history.
   */
  lemma SearchOutcome(grid: seq<Params>, pool: seq<Params>, prevX: seq<Params>, prevY: seq<real>, params: seq<Params>,
                      maes: seq<real>, slots: seq<nat>, highestMae: real, highestMaeIdx: nat, maxSize: nat)
    requires Distinct(grid) && History(grid, pool, prevX)
    requires Tracked(prevX, prevY, params, maes, slots, highestMae, highestMaeIdx, maxSize)
    ensures |prevX| + |pool| == |grid|
    ensures multiset(prevX) <= multiset(grid) && Distinct(prevX) && |prevY| == |prevX|
    ensures |params| == |maes| == Min(|prevX|, maxSize)
    ensures KeepsBest(prevX, prevY, params, maes)
  {
    assert |multiset(prevX) + multiset(pool)| == |multiset(grid)|;
    DistinctBySubMultiset(prevX, grid);
    TrackedKeepsBest(prevX, prevY, params, maes, slots, highestMae, highestMaeIdx, maxSize);
  }

  /**
   * The ensemble after one candidate `x`: appended while the ensemble is not
   * `full`, written over position `idx` when it is full and the candidate is
   * `better`, and unchanged otherwise.
   */
  function Admit<T>(pool: seq<T>, x: T, full: bool, better: bool, idx: nat): (r: seq<T>)
    requires full && better ==> idx < |pool|
    ensures |r| == if full then |pool| else |pool| + 1
    ensures !full ==> r[..|pool|] == pool && r[|pool|] == x
    ensures full && better ==> r[idx] == x && forall k :: 0 <= k < |pool| && k != idx ==> r[k] == pool[k]
    ensures full && !better ==> r == pool
  {
    if !full then pool + [x] else if better then pool[idx := x] else pool
  }

  /** Every branch of the pool update keeps the ensemble tracked against the history. */
  lemma TrackedStep(prevX: seq<Params>, prevY: seq<real>, params: seq<Params>, maes: seq<real>,
                    slots: seq<nat>, highestMae: real, highestMaeIdx: nat, maxSize: nat, p: Params, m: real)
    requires Tracked(prevX, prevY, params, maes, slots, highestMae, highestMaeIdx, maxSize)
    requires m >= 0.0
    ensures var full, better := |prevX| >= maxSize, m < highestMae;
      (full && better ==> highestMaeIdx < |maes|)
      && var newMaes := Admit(maes, m, full, better, highestMaeIdx);
      Tracked(prevX + [p], prevY + [m], Admit(params, p, full, better, highestMaeIdx), newMaes,
              Admit<nat>(slots, |prevX|, full, better, highestMaeIdx), Worst(newMaes).0, Worst(newMaes).1, maxSize)
  {
    if |prevX| < maxSize {
      TrackedAppend(prevX, prevY, params, maes, slots, highestMae, highestMaeIdx, maxSize, p, m);
    } else if m < highestMae {
      TrackedReplace(prevX, prevY, params, maes, slots, highestMae, highestMaeIdx, maxSize, p, m);
    } else {
      TrackedReject(prevX, prevY, params, maes, slots, highestMae, highestMaeIdx, maxSize, p, m);
    }
  }

  /** The history and the remaining pool make up the grid, and the ensemble is tracked against the history. */
  ghost predicate SearchState(grid: seq<Params>, pool: seq<Params>, prevX: seq<Params>, prevY: seq<real>,
                              params: seq<Params>, maes: seq<real>, slots: seq<nat>,
                              highestMae: real, highestMaeIdx: nat, maxSize: nat)
  {
    History(grid, pool, prevX) && Tracked(prevX, prevY, params, maes, slots, highestMae, highestMaeIdx, maxSize)
  }

  /** Evaluating candidate `pool[i]` with error `m` keeps the search state. */
  lemma SearchStateStep(grid: seq<Params>, pool: seq<Params>, i: nat, prevX: seq<Params>, prevY: seq<real>,
                        params: seq<Params>, maes: seq<real>, slots: seq<nat>,
                        highestMae: real, highestMaeIdx: nat, maxSize: nat, m: real, full: bool, better: bool)
    requires SearchState(grid, pool, prevX, prevY, params, maes, slots, highestMae, highestMaeIdx, maxSize) == true
    requires i < |pool| && m >= 0.0 && full == (|prevX| >= maxSize) && better == (m < highestMae)
    ensures full && better ==> highestMaeIdx < |maes|
    ensures SearchState(grid, RemoveAt(pool, i), prevX + [pool[i]], prevY + [m],
                        Admit(params, pool[i], full, better, highestMaeIdx), Admit(maes, m, full, better, highestMaeIdx),
                        Admit<nat>(slots, |prevX|, full, better, highestMaeIdx),
                        Worst(Admit(maes, m, full, better, highestMaeIdx)).0,
                        Worst(Admit(maes, m, full, better, highestMaeIdx)).1, maxSize)
  {
    TrackedStep(prevX, prevY, params, maes, slots, highestMae, highestMaeIdx, maxSize, pool[i], m);
    HistoryStep(grid, pool, prevX, i);
  }

  /** Positive weights add up to more than zero exactly when there is one. */
  lemma {:induction false} SumPositive(ws: seq<real>)
    requires forall n :: 0 <= n < |ws| ==> ws[n] > 0.0
    ensures Sum(ws) >= 0.0 && (Sum(ws) == 0.0 <==> ws == [])
    decreases |ws|
  {
    if ws != [] {
      SumPositive(ws[..|ws| - 1]);
    }
  }

  /** `preds[k]` is a possible `_predict` outcome of member `k`, for every `k` it covers. */
  ghost predicate AllPredict(es: seq<IndividualOrdinalTde>, xs: seq<Case>, sfa: SfaTransform, preds: seq<seq<int>>)
    reads es
  {
    |preds| <= |es| && forall k :: 0 <= k < |preds| ==> es[k].Predicts(xs, sfa, preds[k])
  }

  /**
   * What a member predicts depends only on its own fields: a prediction made
   * by the next member, itself left alone, extends what held at the start.
   */
  twostate lemma AllPredictAppend(es: seq<IndividualOrdinalTde>, new xs: seq<Case>, new sfa: SfaTransform,
                                  new preds: seq<seq<int>>, new p: seq<int>)
    requires old(AllPredict(es, xs, sfa, preds)) == true && |preds| < |es|
    requires unchanged(es[|preds|]) && es[|preds|].Predicts(xs, sfa, p) == true
    ensures old(AllPredict(es, xs, sfa, preds + [p]))
  {
    assert old(es[|preds|].Predicts(xs, sfa, p));
  }

  /** `[n for n in range(nCases) if n not in sub]`: the cases outside a member's subsample, in increasing order. */
  function OutOfBag(nCases: nat, sub: seq<nat>): (r: seq<nat>)
    ensures forall k :: 0 <= k < |r| ==> r[k] < nCases && r[k] !in sub
    ensures forall n :: 0 <= n < nCases && n !in sub ==> n in r
    ensures forall j, k :: 0 <= j < k < |r| ==> r[j] < r[k]
    decreases nCases
  {
    if nCases == 0 then []
    else
      var prev := OutOfBag(nCases - 1, sub);
      if nCases - 1 in sub then prev else prev + [nCases - 1]
  }

  /** The subsamples the members `es` were fitted on, in order. */
  function SubsamplesOf(es: seq<IndividualOrdinalTde>): (r: seq<seq<nat>>)
    reads es
    ensures |r| == |es| && forall k :: 0 <= k < |es| ==> r[k] == es[k].subsample
  {
    seq(|es|, k reads es requires 0 <= k < |es| => es[k].subsample)
  }

  /** The leave-one-out predictions the members `es` kept, in order. */
  function TrainPredictionsOf(es: seq<IndividualOrdinalTde>): (r: seq<seq<int>>)
    reads es
    ensures |r| == |es| && forall k :: 0 <= k < |es| ==> r[k] == es[k].trainPredictions
  {
    seq(|es|, k reads es requires 0 <= k < |es| => es[k].trainPredictions)
  }

  /**
   * `t` are the cases of `xs` outside the subsample of member `e`, and `p`
   * a possible `_predict` outcome of `e` on them, or nothing when there are
   * none.
   */
  ghost predicate OobMember(e: IndividualOrdinalTde, xs: seq<Case>, sfa: SfaTransform, t: seq<nat>, p: seq<int>)
    reads e
  {
    t == OutOfBag(|xs|, e.subsample)
    && (t == [] ==> p == [])
    && (t != [] ==> e.Predicts(Select(xs, t), sfa, p))
  }

  /** `OobMember` for every member `k` the ballots `targets` and `preds` cover. */
  ghost predicate OobPredict(es: seq<IndividualOrdinalTde>, xs: seq<Case>, sfa: SfaTransform,
                             targets: seq<seq<nat>>, preds: seq<seq<int>>)
    reads es
  {
    |targets| == |preds| <= |es| && forall k :: 0 <= k < |preds| ==> OobMember(es[k], xs, sfa, targets[k], preds[k])
  }

  /** What a member left alone predicts out of bag held at the start. */
  twostate lemma OobMemberKept(new e: IndividualOrdinalTde, new xs: seq<Case>, new sfa: SfaTransform,
                               new t: seq<nat>, new p: seq<int>)
    requires old(allocated(e)) && unchanged(e) && OobMember(e, xs, sfa, t, p) == true
    ensures old(OobMember(e, xs, sfa, t, p))
  {
  }

  /** The out-of-bag prediction of the next member, at the start, extends the others'. */
  twostate lemma OobPredictAppend(es: seq<IndividualOrdinalTde>, new xs: seq<Case>, new sfa: SfaTransform,
                                  new targets: seq<seq<nat>>, new preds: seq<seq<int>>, new t: seq<nat>, new p: seq<int>)
    requires old(OobPredict(es, xs, sfa, targets, preds)) == true && |preds| < |es|
    requires old(OobMember(es[|preds|], xs, sfa, t, p)) == true
    ensures old(OobPredict(es, xs, sfa, targets + [t], preds + [p]))
  {
    assert forall k :: 0 <= k < |preds| ==> (targets + [t])[k] == targets[k] && (preds + [p])[k] == preds[k];
  }

  class OrdinalTde {
    const nParameterSamples: nat
    const maxEnsembleSize: nat
    const maxWinLenProp: real
    const minWindow: int
    const randomlySelectedParams: nat
    const bigrams: Option<bool>
    const dimThreshold: real
    const maxDims: nat
    const timeLimitInMinutes: real
    /** `None` stands for the default `np.inf`. */
    const contractMaxNParameterSamples: Option<nat>
    const typedDict: bool
    const trainEstimateMethod: string

    var nCases: nat
    var nChannels: nat
    var nTimepoints: nat
    var classes: seq<int>
    var nEstimators: nat
    var estimators: seq<IndividualOrdinalTde>
    var weights: seq<real>
    var weightSum: real
    var prevParametersX: seq<Params>
    var prevParametersY: seq<real>

    /** An ensemble with the given configuration, not yet fitted. */
    constructor(nParameterSamples: nat, maxEnsembleSize: nat, maxWinLenProp: real, minWindow: int,
                randomlySelectedParams: nat, bigrams: Option<bool>, dimThreshold: real, maxDims: nat,
                timeLimitInMinutes: real, contractMaxNParameterSamples: Option<nat>, typedDict: bool,
                trainEstimateMethod: string)
      ensures this.nParameterSamples == nParameterSamples && this.maxEnsembleSize == maxEnsembleSize
      ensures this.maxWinLenProp == maxWinLenProp && this.minWindow == minWindow
      ensures this.randomlySelectedParams == randomlySelectedParams && this.bigrams == bigrams
      ensures this.dimThreshold == dimThreshold && this.maxDims == maxDims
      ensures this.timeLimitInMinutes == timeLimitInMinutes
      ensures this.contractMaxNParameterSamples == contractMaxNParameterSamples
      ensures this.typedDict == typedDict && this.trainEstimateMethod == trainEstimateMethod
      ensures nCases == 0 && nChannels == 0 && nTimepoints == 0 && nEstimators == 0
      ensures estimators == [] && weights == [] && weightSum == 0.0
      ensures prevParametersX == [] && prevParametersY == []
    {
      this.nParameterSamples := nParameterSamples;
      this.maxEnsembleSize := maxEnsembleSize;
      this.maxWinLenProp := maxWinLenProp;
      this.minWindow := minWindow;
      this.randomlySelectedParams := randomlySelectedParams;
      this.bigrams := bigrams;
      this.dimThreshold := dimThreshold;
      this.maxDims := maxDims;
      this.timeLimitInMinutes := timeLimitInMinutes;
      this.contractMaxNParameterSamples := contractMaxNParameterSamples;
      this.typedDict := typedDict;
      this.trainEstimateMethod := trainEstimateMethod;
      nCases, nChannels, nTimepoints, classes, nEstimators := 0, 0, 0, [], 0;
      estimators, weights, weightSum := [], [], 0.0;
      prevParametersX, prevParametersY := [], [];
    }

    /** The leave-one-out errors of the members, in pool order. */
    ghost function Maes(): (r: seq<real>)
      reads this`estimators, estimators
    {
      MaesOf(estimators)
    }

    /**
     * `_worst_ensemble_mae()`: the running worst over the pool, the first
     * position of the largest error or `(0.0, 0)`.
     */
    method WorstEnsembleMae() returns (worstMae: real, worstMaeIdx: nat)
      ensures (worstMae, worstMaeIdx) == Worst(Maes())
    {
      worstMae, worstMaeIdx := 0.0, 0;
      ghost var maes := Maes();
      for c := 0 to |estimators|
        invariant (worstMae, worstMaeIdx) == Worst(maes[..c])
      {
        assert maes[..c + 1] == maes[..c] + [estimators[c].mae];
        WorstAppend(maes[..c], estimators[c].mae);
        if estimators[c].mae > worstMae {
          worstMae := estimators[c].mae;
          worstMaeIdx := c;
        }
      }
      assert maes[..|estimators|] == maes;
    }

    /**
     * `_individual_train_mae(tde, y, train_size, highest_mae, keep)`: the
     * mean of `|y[i] - prediction|` over the first `train_size` cases, each
     * predicted by its leave-one-out neighbour, capped to 100 when above
     * `highest_mae`; the predictions are appended in case order when kept.
     */
    method IndividualTrainMae(tde: IndividualOrdinalTde, y: seq<int>, trainSize: nat, highestMae: real, keep: bool)
      returns (mae: real)
      requires 2 <= |tde.transformedData| <= |tde.classVals|
      requires 1 <= trainSize <= |tde.transformedData| && trainSize <= |y|
      modifies tde`trainPredictions
      ensures mae == Capped(TrainMae(tde.transformedData, y, tde.classVals, trainSize), highestMae)
      ensures tde.trainPredictions == old(tde.trainPredictions) +
        (if keep then LooPredictions(tde.transformedData, tde.classVals, trainSize) else [])
    {
      var absoluteError := LooErrorTotal(tde, y, trainSize, keep);
      mae := absoluteError as real / trainSize as real;
      if mae > highestMae {
        mae := 100.0;
      }
    }

    /**
     * The loop of `_individual_train_mae`: the summed absolute error of the
     * leave-one-out predictions of the first `trainSize` cases, each
     * prediction appended when kept.
     */
    method LooErrorTotal(tde: IndividualOrdinalTde, y: seq<int>, trainSize: nat, keep: bool)
      returns (absoluteError: nat)
      requires 2 <= |tde.transformedData| <= |tde.classVals|
      requires trainSize <= |tde.transformedData| && trainSize <= |y|
      modifies tde`trainPredictions
      ensures absoluteError == LooErrorSum(tde.transformedData, y, tde.classVals, trainSize)
      ensures tde.trainPredictions == old(tde.trainPredictions) +
        (if keep then LooPredictions(tde.transformedData, tde.classVals, trainSize) else [])
    {
      absoluteError := 0;
      ghost var start := tde.trainPredictions;
      ghost var bags, labels := tde.transformedData, tde.classVals;
      for i := 0 to trainSize
        invariant tde.transformedData == bags && tde.classVals == labels
        invariant absoluteError == LooErrorSum(bags, y, labels, i)
        invariant keep ==> tde.trainPredictions == start + LooPredictions(bags, labels, i)
        invariant !keep ==> tde.trainPredictions == start
      {
        LooStep(bags, y, labels, i);
        var c := tde.TrainPredict(i, None);
        assert c == Some(labels[LooNeighbour(bags, i)]);
        absoluteError := absoluteError + Abs(y[i] - c.value);
        if keep {
          tde.trainPredictions := tde.trainPredictions + [c.value];
        }
      }
    }

    /** `time_limit_in_minutes * 60`, the time contract in seconds. */
    function TimeLimit(): real
    {
      timeLimitInMinutes * 60.0
    }

    /** `_unique_parameters` over the window range for series of `nTimepoints` points. */
    function Grid(nTimepoints: nat): seq<Params>
      requires nTimepoints > 0
    {
      var maxWindow := MaxWindow(nTimepoints, maxWinLenProp);
      UniqueParameters(minWindow, maxWindow, WindowIncrement(nTimepoints, minWindow, maxWindow))
    }

    /** The grid never holds a candidate twice. */
    lemma GridDistinct(nTimepoints: nat)
      requires nTimepoints > 0
      ensures Distinct(Grid(nTimepoints))
    {
      var maxWindow := MaxWindow(nTimepoints, maxWinLenProp);
      UniqueParametersGrid(minWindow, maxWindow, WindowIncrement(nTimepoints, minWindow, maxWindow));
    }

    /** `use_bigrams`: the configured flag, or bigrams exactly for univariate data. */
    function UseBigrams(nChannels: nat): bool
    {
      match bigrams
      case None => nChannels <= 1
      case Some(b) => b
    }

    /**
     * The loop condition of `_fit`: with a time contract, search while time
     * remains and the contract cap is not reached; without one, until
     * `n_parameter_samples` candidates are done; never with an empty pool.
     */
    function Searching(trainTime: real, num: nat, poolSize: nat): (r: bool)
      ensures r ==> poolSize > 0
      ensures TimeLimit() <= 0.0 && trainTime >= 0.0 ==> (r <==> num < nParameterSamples && poolSize > 0)
      ensures TimeLimit() > 0.0 && contractMaxNParameterSamples.Some? && r ==> num < contractMaxNParameterSamples.value
      ensures TimeLimit() > 0.0 && r ==> trainTime < TimeLimit()
      ensures TimeLimit() > 0.0 && !r ==>
        poolSize == 0 || trainTime >= TimeLimit()
        || (contractMaxNParameterSamples.Some? && num >= contractMaxNParameterSamples.value)
    {
      var timed := TimeLimit() > 0.0;
      var nSamples := if timed then 0 else nParameterSamples;
      var cap := if timed then contractMaxNParameterSamples else None;
      ((trainTime < TimeLimit() && (cap.None? || num < cap.value)) || num < nSamples) && poolSize > 0
    }

    /**
     * The position popped from the pool: a random one for the first
     * `randomly_selected_params` candidates, then one the surrogate predicts
     * to have the least error.
     */
    function CandidateIndex(o: SearchOracles, num: nat, prevX: seq<Params>, prevY: seq<real>, pool: seq<Params>): (i: nat)
      requires pool != []
      requires PicksInRange(o)
      ensures i < |pool|
    {
      if num < randomlySelectedParams then o.randomPick(num, |pool|) else o.surrogatePick(prevX, prevY, pool)
    }

    /** Members and weights in parallel, each weight that of its member's error. */
    ghost predicate PoolReady()
      reads this`estimators, this`weights, this`nChannels, this`nCases, this`classes, estimators
    {
      Ready(estimators, weights, nChannels, nCases, classes)
    }

    /** The fitted state `_predict_proba` relies on. */
    ghost predicate Fitted()
      reads this, estimators
    {
      PoolReady() && nEstimators == |estimators| && weightSum == Sum(weights) && |classes| >= 1
    }

    /**
     * A member built from candidate `p` with this ensemble's settings,
     * fitted on the cases `xs` (an ensemble's subsample) and remembering the
     * subsample `sub`.
     */
    method NewMember(xs: seq<Case>, y: seq<int>, sub: seq<nat>, p: Params, sfa: SfaTransform, choice: Sampler)
      returns (tde: IndividualOrdinalTde)
      requires nChannels >= 1 && HasChannels(xs, nChannels)
      requires |xs| == |y| >= 2
      requires Honours(sfa) && SamplesWithoutReplacement(choice)
      ensures fresh(tde)
      ensures tde.params == p && tde.alphabetSize == AlphabetSize && tde.bigrams == UseBigrams(nChannels)
      ensures tde.dimThreshold == dimThreshold && tde.maxDims == maxDims && tde.typedDict == typedDict
      ensures tde.Fitted() && tde.nChannels == nChannels && tde.classVals == y && |tde.transformedData| == |xs|
      ensures tde.subsample == sub && tde.trainPredictions == [] && tde.mae == 0.0
    {
      tde := new IndividualOrdinalTde(p, AlphabetSize, UseBigrams(nChannels), dimThreshold, maxDims, typedDict);
      tde.Fit(xs, y, sfa, choice);
      tde.subsample := sub;
    }

    /**
     * `tde.fit(X[subsample], y[subsample])` followed by `_individual_train_mae`
     * on that subsample: a fresh member with candidate `p`, scored by its
     * leave-one-out error capped above `threshold`.
     */
    method FitMember(xs: seq<Case>, y: seq<int>, p: Params, sub: seq<nat>, o: SearchOracles, num: nat,
                     threshold: real, keep: bool) returns (tde: IndividualOrdinalTde)
      requires nCases == |xs| == |y| && nChannels >= 1 && HasChannels(xs, nChannels)
      requires forall i :: 0 <= i < |y| ==> y[i] in classes
      requires IsSample(sub, |xs|, |sub|) && |sub| >= 2
      requires Honours(o.sfa) && SamplesWithoutReplacement(o.memberChoice(num))
      requires threshold <= 100.0
      ensures fresh(tde)
      ensures MemberReady(tde, nChannels, nCases, classes)
      ensures tde.params == p && tde.alphabetSize == AlphabetSize && tde.bigrams == UseBigrams(nChannels)
      ensures tde.dimThreshold == dimThreshold && tde.maxDims == maxDims && tde.typedDict == typedDict
      ensures tde.subsample == sub && ScoredWith(tde, y, keep, threshold)
    {
      var xsSub, ySub := Select(xs, sub), Select(y, sub);
      tde := NewMember(xsSub, ySub, sub, p, o.sfa, o.memberChoice(num));
      ScoreMember(tde, threshold, keep);
      assert forall j :: 0 <= j < |ySub| ==> ySub[j] in classes;
      ReadyIntro(tde, nChannels, nCases, classes);
    }

    /**
     * `tde._mae = self._individual_train_mae(tde, y_subsample, ...)`: the
     * member's labels are its subsample's labels, and its error lands in
     * [0, 100] whatever the threshold up to 100.
     */
    method ScoreMember(tde: IndividualOrdinalTde, threshold: real, keep: bool)
      requires tde.Fitted() && |tde.transformedData| >= 2 && tde.trainPredictions == []
      requires threshold <= 100.0
      modifies tde`trainPredictions, tde`mae
      ensures tde.Fitted()
      ensures tde.mae == Capped(TrainMae(tde.transformedData, tde.classVals, tde.classVals, |tde.transformedData|), threshold)
      ensures 0.0 <= tde.mae <= 100.0
      ensures tde.trainPredictions == if keep then LooPredictions(tde.transformedData, tde.classVals, |tde.transformedData|) else []
      ensures forall j :: 0 <= j < |tde.trainPredictions| ==> tde.trainPredictions[j] in tde.classVals
    {
      var y := tde.classVals;
      var mae := IndividualTrainMae(tde, y, |tde.transformedData|, threshold, keep);
      tde.mae := mae;
      ghost var bags := tde.transformedData;
      TrainMaeZero(bags, y, y, |bags|);
      CappedFacts(TrainMae(bags, y, y, |bags|), threshold);
      LooPredictionsFromLabels(bags, y, |bags|);
      tde.FittedKept();
    }

  
    /**
     * The pool update of one search iteration: while the pool is not full
     * the member is appended, tracking the running worst; once it is full,
     * the member replaces the worst one only when its error is strictly
     * lower, and the worst is then recomputed. Nothing else changes.
     */
    method UpdatePool(tde: IndividualOrdinalTde, weight: real, num: nat, highestMae: real, highestMaeIdx: nat,
                      ghost maes: seq<real>)
      returns (newHighestMae: real, newHighestMaeIdx: nat)
      requires |estimators| == |weights| == Min(num, maxEnsembleSize) && tde.mae >= 0.0
      requires maes == Maes() && (highestMae, highestMaeIdx) == Worst(maes)
      modifies this`estimators, this`weights
      ensures var full, better := num >= maxEnsembleSize, tde.mae < highestMae;
        (full && better ==> highestMaeIdx < |maes|)
        && estimators == Admit(old(estimators), tde, full, better, highestMaeIdx)
        && weights == Admit(old(weights), weight, full, better, highestMaeIdx)
        && (newHighestMae, newHighestMaeIdx) == Worst(Admit(maes, tde.mae, full, better, highestMaeIdx))
    {
      newHighestMae, newHighestMaeIdx := highestMae, highestMaeIdx;
      if num < maxEnsembleSize {
        if tde.mae > highestMae {
          newHighestMae, newHighestMaeIdx := tde.mae, num;
        }
        WorstAppend(maes, tde.mae);
        weights := weights + [weight];
        estimators := estimators + [tde];
      } else if tde.mae < highestMae {
        weights := weights[highestMaeIdx := weight];
        estimators := estimators[highestMaeIdx := tde];
        newHighestMae, newHighestMaeIdx := WorstEnsembleMae();
        assert Maes() == maes[highestMaeIdx := tde.mae];
      }
    }

    /** The candidates of the members, in pool order. */
    function MemberParams(): seq<Params>
      reads this`estimators
    {
      ParamsOf(estimators)
    }

    /**
     * What holds between iterations of the search in `_fit`: the history
     * and the remaining pool make up the grid, the members are ready and
     * weighed, and the ensemble is tracked against the history.
     */
    ghost predicate Searched(grid: seq<Params>, pool: seq<Params>, members: seq<Params>, maes: seq<real>,
                             highestMae: real, highestMaeIdx: nat, slots: seq<nat>)
      reads this, estimators
    {
      PoolReady() && MemberParams() == members && Maes() == maes
      && SearchState(grid, pool, prevParametersX, prevParametersY, members, maes, slots,
                     highestMae, highestMaeIdx, maxEnsembleSize)
    }

    /** The parts of `Searched`, each established on its own. */
    lemma SearchedIntro(grid: seq<Params>, pool: seq<Params>, members: seq<Params>, maes: seq<real>,
                        highestMae: real, highestMaeIdx: nat, slots: seq<nat>)
      requires PoolReady() == true && MemberParams() == members && Maes() == maes
      requires SearchState(grid, pool, prevParametersX, prevParametersY, members, maes, slots,
                           highestMae, highestMaeIdx, maxEnsembleSize) == true
      ensures Searched(grid, pool, members, maes, highestMae, highestMaeIdx, slots) == true
    {
    }

    /**
     * The bookkeeping of one search iteration: the pool update, then the
     * member's candidate and error appended to the history; the ensemble
     * stays ready and its errors follow the update.
     */
    method AdmitMember(tde: IndividualOrdinalTde, weight: real, highestMae: real, highestMaeIdx: nat,
                       ghost maes: seq<real>)
      returns (newHighestMae: real, newHighestMaeIdx: nat)
      requires PoolReady() && |estimators| == Min(|prevParametersX|, maxEnsembleSize)
      requires maes == Maes() && (highestMae, highestMaeIdx) == Worst(maes)
      requires MemberReady(tde, nChannels, nCases, classes) && weight == MemberWeight(tde.mae)
      modifies this`estimators, this`weights, this`prevParametersX, this`prevParametersY
      ensures PoolReady()
      ensures |old(prevParametersX)| >= maxEnsembleSize && tde.mae < highestMae ==> highestMaeIdx < |maes|
      ensures estimators
              == Admit(old(estimators), tde, |old(prevParametersX)| >= maxEnsembleSize, tde.mae < highestMae, highestMaeIdx)
      ensures Maes() == Admit(maes, tde.mae, |old(prevParametersX)| >= maxEnsembleSize, tde.mae < highestMae, highestMaeIdx)
      ensures MemberParams() == Admit(old(MemberParams()), tde.params, |old(prevParametersX)| >= maxEnsembleSize,
                                      tde.mae < highestMae, highestMaeIdx)
      ensures (newHighestMae, newHighestMaeIdx) == Worst(Maes())
      ensures prevParametersX == old(prevParametersX) + [tde.params] && prevParametersY == old(prevParametersY) + [tde.mae]
    {
      ghost var full, better := |prevParametersX| >= maxEnsembleSize, tde.mae < highestMae;
      ghost var es, ws, params := estimators, weights, MemberParams();
      ghost var newEs := Admit(es, tde, full, better, highestMaeIdx);
      ghost var newWs := Admit(ws, weight, full, better, highestMaeIdx);
      ghost var newMaes := Admit(maes, tde.mae, full, better, highestMaeIdx);
      newHighestMae, newHighestMaeIdx := UpdatePool(tde, weight, |prevParametersX|, highestMae, highestMaeIdx, maes);
      prevParametersX := prevParametersX + [tde.params];
      prevParametersY := prevParametersY + [tde.mae];
      AdmitKept(es, tde, ws, weight, nChannels, nCases, classes, full, better, highestMaeIdx);
      assert estimators == newEs && weights == newWs;
      assert Maes() == newMaes;
      assert MemberParams() == Admit(params, tde.params, full, better, highestMaeIdx);
    }

    /**
     * One search iteration after the member for candidate `pool[i]` is
     * fitted: the ensemble stays tracked against the grown history.
     */
    method RecordMember(tde: IndividualOrdinalTde, weight: real, ghost grid: seq<Params>, ghost pool: seq<Params>,
                        ghost i: nat, ghost members: seq<Params>, ghost maes: seq<real>,
                        highestMae: real, highestMaeIdx: nat, ghost slots: seq<nat>)
      returns (newHighestMae: real, newHighestMaeIdx: nat, ghost newMembers: seq<Params>, ghost newMaes: seq<real>,
               ghost newSlots: seq<nat>)
      requires i < |pool| && tde.params == pool[i]
      requires Searched(grid, pool, members, maes, highestMae, highestMaeIdx, slots) == true
      requires MemberReady(tde, nChannels, nCases, classes) && weight == MemberWeight(tde.mae)
      modifies this`estimators, this`weights, this`prevParametersX, this`prevParametersY
      ensures Searched(grid, RemoveAt(pool, i), newMembers, newMaes, newHighestMae, newHighestMaeIdx, newSlots) == true
      ensures prevParametersX == old(prevParametersX) + [pool[i]] && prevParametersY == old(prevParametersY) + [tde.mae]
      ensures |old(prevParametersX)| >= maxEnsembleSize && tde.mae < highestMae ==> highestMaeIdx < |old(estimators)|
      ensures estimators == Admit(old(estimators), tde, |old(prevParametersX)| >= maxEnsembleSize, tde.mae < highestMae,
                                  highestMaeIdx)
    {
      ghost var m := tde.mae;
      ghost var full, better := |prevParametersX| >= maxEnsembleSize, m < highestMae;
      newSlots := Admit<nat>(slots, |prevParametersX|, full, better, highestMaeIdx);
      newMembers, newMaes := Admit(members, pool[i], full, better, highestMaeIdx), Admit(maes, m, full, better, highestMaeIdx);
      newHighestMae, newHighestMaeIdx := AdmitMember(tde, weight, highestMae, highestMaeIdx, maes);
      Recorded(grid, pool, i, members, maes, highestMae, highestMaeIdx, slots, tde.params, m,
               newHighestMae, newHighestMaeIdx);
    }

    /** What `RecordMember` establishes, from the effect of `AdmitMember` alone. */
    twostate lemma Recorded(new grid: seq<Params>, new pool: seq<Params>, new i: nat, new members: seq<Params>,
                            new maes: seq<real>, new highestMae: real, new highestMaeIdx: nat, new slots: seq<nat>,
                            new p: Params, new m: real, new newHighestMae: real, new newHighestMaeIdx: nat)
      requires old(Searched(grid, pool, members, maes, highestMae, highestMaeIdx, slots)) == true
      requires i < |pool| && p == pool[i] && m >= 0.0
      requires PoolReady() == true
      requires |old(prevParametersX)| >= maxEnsembleSize && m < highestMae ==> highestMaeIdx < |maes|
      requires prevParametersX == old(prevParametersX) + [p] && prevParametersY == old(prevParametersY) + [m]
      requires MemberParams() == Admit(old(MemberParams()), p, |old(prevParametersX)| >= maxEnsembleSize,
                                       m < highestMae, highestMaeIdx)
      requires Maes() == Admit(maes, m, |old(prevParametersX)| >= maxEnsembleSize, m < highestMae, highestMaeIdx)
      requires (newHighestMae, newHighestMaeIdx) == Worst(Maes())
      ensures Searched(grid, RemoveAt(pool, i),
                       Admit(members, pool[i], |old(prevParametersX)| >= maxEnsembleSize, m < highestMae, highestMaeIdx),
                       Admit(maes, m, |old(prevParametersX)| >= maxEnsembleSize, m < highestMae, highestMaeIdx),
                       newHighestMae, newHighestMaeIdx,
                       Admit<nat>(slots, |old(prevParametersX)|, |old(prevParametersX)| >= maxEnsembleSize, m < highestMae,
                             highestMaeIdx)) == true
    {
      var prevX, prevY := old(prevParametersX), old(prevParametersY);
      var full, better := |prevX| >= maxEnsembleSize, m < highestMae;
      SearchStateStep(grid, pool, i, prevX, prevY, members, maes, slots, highestMae, highestMaeIdx, maxEnsembleSize, m,
                      full, better);
      var newMaes := Admit(maes, m, full, better, highestMaeIdx);
      SearchedIntro(grid, RemoveAt(pool, i), Admit(members, pool[i], full, better, highestMaeIdx), newMaes,
                    newHighestMae, newHighestMaeIdx, Admit<nat>(slots, |prevX|, full, better, highestMaeIdx));
    }

    /** The running worst of the search is at most the cap of 100, every member's error being at most 100. */
    lemma WorstWithinCap(grid: seq<Params>, pool: seq<Params>, members: seq<Params>, maes: seq<real>,
                         highestMae: real, highestMaeIdx: nat, slots: seq<nat>)
      requires Searched(grid, pool, members, maes, highestMae, highestMaeIdx, slots)
      ensures highestMae <= 100.0
    {
      if highestMae > 0.0 {
        assert MemberReady(estimators[highestMaeIdx], nChannels, nCases, classes);
      }
    }

    /**
     * `RecordMember` for a member scored as the search scores it: every
     * member of the ensemble stays scored as against the cap of 100.
     */
    method RecordScored(tde: IndividualOrdinalTde, weight: real, ghost grid: seq<Params>, ghost pool: seq<Params>,
                        ghost i: nat, ghost members: seq<Params>, ghost maes: seq<real>,
                        highestMae: real, highestMaeIdx: nat, ghost slots: seq<nat>, ghost y: seq<int>, ghost keep: bool,
                        ghost threshold: real)
      returns (newHighestMae: real, newHighestMaeIdx: nat, ghost newMembers: seq<Params>, ghost newMaes: seq<real>,
               ghost newSlots: seq<nat>)
      requires i < |pool| && tde.params == pool[i]
      requires Searched(grid, pool, members, maes, highestMae, highestMaeIdx, slots) == true
      requires MemberReady(tde, nChannels, nCases, classes) && weight == MemberWeight(tde.mae)
      requires Scored(estimators, y, keep) && highestMae <= 100.0
      requires threshold == (if |prevParametersX| < maxEnsembleSize then 100.0 else highestMae)
      requires ScoredWith(tde, y, keep, threshold)
      modifies this`estimators, this`weights, this`prevParametersX, this`prevParametersY
      ensures Searched(grid, RemoveAt(pool, i), newMembers, newMaes, newHighestMae, newHighestMaeIdx, newSlots) == true
      ensures prevParametersX == old(prevParametersX) + [pool[i]] && prevParametersY == old(prevParametersY) + [tde.mae]
      ensures Scored(estimators, y, keep)
      ensures unchanged(tde)
    {
      ghost var es, full := estimators, |prevParametersX| >= maxEnsembleSize;
      label Scoring:
      newHighestMae, newHighestMaeIdx, newMembers, newMaes, newSlots :=
        RecordMember(tde, weight, grid, pool, i, members, maes, highestMae, highestMaeIdx, slots);
      AdmitScoredKept@Scoring(es, tde, y, keep, full, highestMae, highestMaeIdx, threshold);
    }

    /**
     * One iteration of the search loop of `_fit`: pop a candidate, fit and
     * score a member on a fresh subsample, update the ensemble and append
     * the candidate and its error to the history.
     */
    method SearchStep(xs: seq<Case>, y: seq<int>, o: SearchOracles, keep: bool, ghost grid: seq<Params>,
                      pool: seq<Params>, ghost members: seq<Params>, ghost maes: seq<real>,
                      highestMae: real, highestMaeIdx: nat, ghost slots: seq<nat>)
      returns (rest: seq<Params>, ghost newMembers: seq<Params>, ghost newMaes: seq<real>,
               newHighestMae: real, newHighestMaeIdx: nat, ghost newSlots: seq<nat>,
               ghost member: IndividualOrdinalTde)
      requires nCases == |xs| == |y| >= 3 && nChannels >= 1 && HasChannels(xs, nChannels)
      requires forall i :: 0 <= i < |y| ==> y[i] in classes
      requires ValidOracles(o, nCases, SubsampleSize(nCases))
      requires pool != [] && Searched(grid, pool, members, maes, highestMae, highestMaeIdx, slots)
      requires Scored(estimators, y, keep)
      modifies this`estimators, this`weights, this`prevParametersX, this`prevParametersY
      ensures Searched(grid, rest, newMembers, newMaes, newHighestMae, newHighestMaeIdx, newSlots)
      ensures Scored(estimators, y, keep)
      ensures var num := |old(prevParametersX)|;
        var i := CandidateIndex(o, num, old(prevParametersX), old(prevParametersY), pool);
        rest == RemoveAt(pool, i) && prevParametersX == old(prevParametersX) + [pool[i]]
        && prevParametersY == old(prevParametersY) + [member.mae]
        && member.params == pool[i] && member.subsample == o.subsample(num)
        && ScoredWith(member, y, keep, if num < maxEnsembleSize then 100.0 else highestMae)
    {
      WorstWithinCap(grid, pool, members, maes, highestMae, highestMaeIdx, slots);
      var num := |prevParametersX|;
      var i := CandidateIndex(o, num, prevParametersX, prevParametersY, pool);
      var parameters := pool[i];
      rest := RemoveAt(pool, i);
      var sub := o.subsample(num);
      var threshold := if num < maxEnsembleSize then 100.0 else highestMae;
      var tde := FitMember(xs, y, parameters, sub, o, num, threshold, keep);
      var weight := MemberWeight(tde.mae);
      newHighestMae, newHighestMaeIdx, newMembers, newMaes, newSlots :=
        RecordScored(tde, weight, grid, pool, i, members, maes, highestMae, highestMaeIdx, slots, y, keep, threshold);
      member := tde;
    }

    /**
     * `_fit(X, y, keep_train_preds)`: search the grid of candidates, fit a
     * member per candidate on a fresh subsample and keep the best
     * `max_ensemble_size` of them. Without a time contract exactly
     * `min(n_parameter_samples, |grid|)` candidates are evaluated, each at
     * most once; with one, at most the contract cap.
     */
    method Fit(xs: seq<Case>, y: seq<int>, classes: seq<int>, o: SearchOracles, keep: bool)
      requires |xs| == |y| >= 3 && |xs[0]| >= 1 && HasChannels(xs, |xs[0]|) && |xs[0][0]| >= 1
      requires forall i :: 0 <= i < |y| ==> y[i] in classes
      requires ValidOracles(o, |xs|, SubsampleSize(|xs|))
      modifies this
      ensures nCases == |xs| && nChannels == |xs[0]| && nTimepoints == |xs[0][0]| && this.classes == classes
      ensures Fitted()
      ensures multiset(prevParametersX) <= multiset(Grid(nTimepoints)) && Distinct(prevParametersX)
      ensures |prevParametersY| == |prevParametersX|
      ensures TimeLimit() <= 0.0 ==> |prevParametersX| == Min(nParameterSamples, |Grid(nTimepoints)|)
      ensures TimeLimit() > 0.0 && contractMaxNParameterSamples.Some? ==>
        |prevParametersX| <= contractMaxNParameterSamples.value
      ensures |estimators| == Min(|prevParametersX|, maxEnsembleSize)
      ensures KeepsBest(prevParametersX, prevParametersY, MemberParams(), Maes())
      ensures Scored(estimators, y, keep)
    {
      nCases, nChannels, nTimepoints, this.classes := |xs|, |xs[0]|, |xs[0][0]|, classes;
      estimators, weights, prevParametersX, prevParametersY := [], [], [], [];
      Search(xs, y, o, keep);
      assert nCases == |xs| && nChannels == |xs[0]| && nTimepoints == |xs[0][0]| && this.classes == classes;
      assert y[0] in this.classes;
      ghost var px, py, ps, ms := prevParametersX, prevParametersY, MemberParams(), Maes();
      Summarise();
      assert prevParametersX == px && prevParametersY == py && MemberParams() == ps && Maes() == ms;
    }

    /**
     * The search loop of `_fit`, from an empty ensemble and history: while
     * `Searching`, one `SearchStep` per candidate, with the elapsed time
     * read after each.
     */
    method Search(xs: seq<Case>, y: seq<int>, o: SearchOracles, keep: bool)
      requires nCases == |xs| == |y| >= 3 && nChannels >= 1 && HasChannels(xs, nChannels) && nTimepoints >= 1
      requires forall i :: 0 <= i < |y| ==> y[i] in classes
      requires ValidOracles(o, nCases, SubsampleSize(nCases))
      requires estimators == [] && weights == [] && prevParametersX == [] && prevParametersY == []
      modifies this`estimators, this`weights, this`prevParametersX, this`prevParametersY
      ensures PoolReady()
      ensures multiset(prevParametersX) <= multiset(Grid(nTimepoints)) && Distinct(prevParametersX)
      ensures |prevParametersY| == |prevParametersX|
      ensures TimeLimit() <= 0.0 ==> |prevParametersX| == Min(nParameterSamples, |Grid(nTimepoints)|)
      ensures TimeLimit() > 0.0 && contractMaxNParameterSamples.Some? ==>
        |prevParametersX| <= contractMaxNParameterSamples.value
      ensures |estimators| == Min(|prevParametersX|, maxEnsembleSize)
      ensures KeepsBest(prevParametersX, prevParametersY, MemberParams(), Maes())
      ensures Scored(estimators, y, keep)
      ensures nCases == old(nCases) && nChannels == old(nChannels) && nTimepoints == old(nTimepoints)
      ensures classes == old(classes)
    {
      var grid := Grid(nTimepoints);
      var candidates := grid;
      var num, trainTime := 0, 0.0;
      var highestMae, highestMaeIdx := 0.0, 0;
      ghost var slots, members, maes := [], [], [];
      while Searching(trainTime, num, |candidates|)
        invariant num == |prevParametersX| && trainTime >= 0.0
        invariant Searched(grid, candidates, members, maes, highestMae, highestMaeIdx, slots)
        invariant Scored(estimators, y, keep)
        invariant TimeLimit() <= 0.0 ==> num <= nParameterSamples
        invariant TimeLimit() > 0.0 && contractMaxNParameterSamples.Some? ==> num <= contractMaxNParameterSamples.value
        decreases |candidates|
      {
        ghost var member;
        candidates, members, maes, highestMae, highestMaeIdx, slots, member :=
          SearchStep(xs, y, o, keep, grid, candidates, members, maes, highestMae, highestMaeIdx, slots);
        num := num + 1;
        trainTime := o.elapsed(num);
      }
      GridDistinct(nTimepoints);
      SearchOutcome(grid, candidates, prevParametersX, prevParametersY, members, maes, slots,
                    highestMae, highestMaeIdx, maxEnsembleSize);
    }

    /** Every member weighs more than zero, so the weight sum is zero exactly when the ensemble is empty. */
    lemma WeightSumPositive()
      requires Fitted()
      ensures forall n :: 0 <= n < |weights| ==> weights[n] > 0.0
      ensures weightSum >= 0.0 && (weightSum == 0.0 <==> estimators == [])
    {
      forall n | 0 <= n < |weights|
        ensures weights[n] > 0.0
      {
        MemberWeightBounds(estimators[n].mae);
      }
      SumPositive(weights);
    }

    /**
     * `_predict_proba(X)`: member `n` predicts every case, drawing its
     * tie-breaking coins for case `i` from `coins(n)(i)`, and adds its weight
     * to the cell of each prediction; the sums are divided by the weight sum.
     * `None` stands for the all-NaN result of an empty ensemble, whose
     * weight sum is 0. Every other result has one probability row per case.
     */
    method PredictProba(xs: seq<Case>, sfa: SfaTransform, coins: nat -> nat -> CoinFlips)
      returns (probs: Option<seq<seq<real>>>, ghost preds: seq<seq<int>>)
      requires Fitted() && Honours(sfa) && (nChannels > 1 ==> HasChannels(xs, nChannels))
      ensures |preds| == |estimators|
      ensures AllPredict(estimators, xs, sfa, preds)
      ensures Ballots(preds, |xs|, classes)
      ensures probs.None? <==> weightSum == 0.0
      ensures probs.Some? ==>
        Castable(PoolVotes(EveryCase(|xs|, |preds|), preds, weights), |xs|, classes)
        && probs.value == ScaleRows(TallyFrom(ZeroRows(|xs|, |classes|), classes,
                                              PoolVotes(EveryCase(|xs|, |preds|), preds, weights)), weightSum)
      ensures probs.Some? ==>
        |probs.value| == |xs| && forall i :: 0 <= i < |xs| ==> |probs.value[i]| == |classes| && Distribution(probs.value[i])
    {
      WeightSumPositive();
      var ps := PredictAll(xs, sfa, coins);
      probs := VoteProba(|xs|, classes, ps, weights, weightSum);
      preds := ps;
    }

    /**
     * The predictions of the member loop of `_predict_proba`: member `n`
     * predicts every case, drawing its tie-breaking coins from `coins(n)`.
     */
    method PredictAll(xs: seq<Case>, sfa: SfaTransform, coins: nat -> nat -> CoinFlips)
      returns (preds: seq<seq<int>>)
      requires Fitted() && Honours(sfa) && (nChannels > 1 ==> HasChannels(xs, nChannels))
      ensures |preds| == |estimators|
      ensures old(AllPredict(estimators, xs, sfa, preds))
      ensures Ballots(preds, |xs|, classes)
    {
      preds := [];
      for n := 0 to |estimators|
        invariant |preds| == n
        invariant old(AllPredict(estimators, xs, sfa, preds)) == true
        invariant Ballots(preds, |xs|, classes)
      {
        var p := estimators[n].Predict(xs, sfa, coins(n));
        PredictionsKnown(n, xs, sfa, p);
        AllPredictAppend(estimators, xs, sfa, preds, p);
        BallotsAppend(preds, p, |xs|, classes);
        preds := preds + [p];
      }
    }

    /** A member's predictions are classes of the ensemble. */
    lemma PredictionsKnown(n: nat, xs: seq<Case>, sfa: SfaTransform, p: seq<int>)
      requires Fitted() && n < |estimators| && estimators[n].Predicts(xs, sfa, p)
      ensures |p| == |xs| && forall i :: 0 <= i < |xs| ==> p[i] in classes
    {
      var e := estimators[n];
      forall i | 0 <= i < |xs|
        ensures p[i] in classes
      {
        var j :| 0 <= j < |e.classVals| && e.classVals[j] == p[i];
      }
    }

    /** The loocv branch: each member's kept predictions are votes on its own subsample. */
    lemma LooWeighable()
      requires Fitted()
      ensures Weighable(SubsamplesOf(estimators), TrainPredictionsOf(estimators), weights, nCases, classes)
    {
      WeightSumPositive();
      var targets, preds := SubsamplesOf(estimators), TrainPredictionsOf(estimators);
      forall n, i | 0 <= n < |preds| && 0 <= i < |preds[n]|
        ensures |preds[n]| <= |targets[n]| && targets[n][i] < nCases && preds[n][i] in classes
      {
        assert MemberReady(estimators[n], nChannels, nCases, classes);
      }
      forall n | 0 <= n < |preds|
        ensures |preds[n]| <= |targets[n]|
      {
        assert MemberReady(estimators[n], nChannels, nCases, classes);
      }
    }

    /** Every member weighs more than zero, so every case a member voted on has a positive divisor. */
    lemma Covered(targets: seq<seq<nat>>, preds: seq<seq<int>>)
      requires Fitted() && Weighable(targets, preds, weights, nCases, classes)
      ensures forall n, i :: 0 <= n < |preds| && 0 <= i < |preds[n]| ==>
        Reached(nCases, classes, targets, preds, weights)[targets[n][i]] > 0.0
    {
      WeightSumPositive();
      forall n, i | 0 <= n < |preds| && 0 <= i < |preds[n]|
        ensures Reached(nCases, classes, targets, preds, weights)[targets[n][i]] > 0.0
      {
        CastDivisorPositive(nCases, classes, targets, preds, weights, n, i);
      }
    }

    /** Out of bag, a member predicts every case outside its subsample. */
    lemma OobComplete(xs: seq<Case>, sfa: SfaTransform, targets: seq<seq<nat>>, preds: seq<seq<int>>)
      requires Fitted() && OobPredict(estimators, xs, sfa, targets, preds)
      ensures forall n :: 0 <= n < |preds| ==> |preds[n]| == |targets[n]|
    {
      forall n | 0 <= n < |preds|
        ensures |preds[n]| == |targets[n]|
      {
        assert OobMember(estimators[n], xs, sfa, targets[n], preds[n]);
        if targets[n] != [] {
          PredictionsKnown(n, Select(xs, targets[n]), sfa, preds[n]);
        }
      }
    }

    /**
     * The member loop of the oob branch of `_fit_predict_proba`: member `n`
     * predicts the cases outside its subsample, drawing its tie-breaking
     * coins from `coins(n)`, and is skipped when there are none.
     */
    method OobBallots(xs: seq<Case>, sfa: SfaTransform, coins: nat -> nat -> CoinFlips)
      returns (targets: seq<seq<nat>>, preds: seq<seq<int>>)
      requires Fitted() && Honours(sfa) && |xs| == nCases && (nChannels > 1 ==> HasChannels(xs, nChannels))
      ensures |preds| == |estimators|
      ensures old(OobPredict(estimators, xs, sfa, targets, preds))
      ensures Weighable(targets, preds, weights, nCases, classes)
    {
      WeightSumPositive();
      targets, preds := [], [];
      for n := 0 to |estimators|
        invariant |preds| == n
        invariant old(OobPredict(estimators, xs, sfa, targets, preds)) == true
        invariant Weighable(targets, preds, weights[..n], nCases, classes)
      {
        var oob := OutOfBag(nCases, estimators[n].subsample);
        var p := [];
        if |oob| != 0 {
          p := estimators[n].Predict(Select(xs, oob), sfa, coins(n));
          PredictionsKnown(n, Select(xs, oob), sfa, p);
        }
        OobMemberKept(estimators[n], xs, sfa, oob, p);
        OobPredictAppend(estimators, xs, sfa, targets, preds, oob, p);
        WeighableAppend(targets, preds, weights, n, oob, p, nCases, classes);
        targets, preds := targets + [oob], preds + [p];
      }
      assert weights[..|weights|] == weights;
    }

    /**
     * `_fit_predict_proba(X, y)`: `_fit` keeping the members' leave-one-out
     * predictions, then the training probabilities of `TrainProba`; an
     * unknown estimate method is reported only after fitting.
     */
    method FitPredictProba(xs: seq<Case>, y: seq<int>, classes: seq<int>, o: SearchOracles, sfa: SfaTransform,
                           coins: nat -> nat -> CoinFlips)
      returns (r: Result<seq<seq<real>>>, ghost targets: seq<seq<nat>>, ghost preds: seq<seq<int>>)
      requires |xs| == |y| >= 3 && |xs[0]| >= 1 && HasChannels(xs, |xs[0]|) && |xs[0][0]| >= 1
      requires forall i :: 0 <= i < |y| ==> y[i] in classes
      requires ValidOracles(o, |xs|, SubsampleSize(|xs|)) && Honours(sfa)
      modifies this
      ensures nCases == |xs| && this.classes == classes && Fitted()
      ensures |estimators| == Min(|prevParametersX|, maxEnsembleSize)
      ensures KeepsBest(prevParametersX, prevParametersY, MemberParams(), Maes())
      ensures r.Ok? <==> Lower(trainEstimateMethod) == "loocv" || Lower(trainEstimateMethod) == "oob"
      ensures r.Err? ==> r.error == InvalidTrainEstimateMethod
      ensures Lower(trainEstimateMethod) == "loocv" ==>
        targets == SubsamplesOf(estimators) && preds == TrainPredictionsOf(estimators)
      ensures Lower(trainEstimateMethod) == "oob" ==>
        |preds| == |estimators| && OobPredict(estimators, xs, sfa, targets, preds)
      ensures r.Ok? ==>
        Weighable(targets, preds, weights, nCases, classes)
        && r.value == WeighedProbs(nCases, this.classes, targets, preds, weights)
      ensures r.Ok? ==>
        |r.value| == |xs| && forall t :: 0 <= t < |xs| ==> |r.value[t]| == |classes| && Distribution(r.value[t])
      ensures Scored(estimators, y, true)
      ensures r.Ok? ==> forall n :: 0 <= n < |targets| ==> |preds[n]| == |targets[n]|
      ensures r.Ok? ==> forall n, i :: 0 <= n < |targets| && 0 <= i < |targets[n]| ==>
        Reached(nCases, classes, targets, preds, weights)[targets[n][i]] > 0.0
    {
      Fit(xs, y, classes, o, true);
      r, targets, preds := TrainProba(xs, sfa, coins);
    }

    /**
     * `_fit_predict_proba` once `_fit` has run. With loocv every member
     * votes its kept leave-one-out predictions on its own subsample; with
     * oob every member votes its predictions for the cases outside its
     * subsample; the method name is compared after ASCII lower-casing, and
     * any other name is an error. Each row is normalised by the weight that
     * reached its case.
     */
    method TrainProba(xs: seq<Case>, sfa: SfaTransform, coins: nat -> nat -> CoinFlips)
      returns (r: Result<seq<seq<real>>>, ghost targets: seq<seq<nat>>, ghost preds: seq<seq<int>>)
      requires Fitted() && Honours(sfa) && |xs| == nCases && (nChannels > 1 ==> HasChannels(xs, nChannels))
      ensures r.Ok? <==> Lower(trainEstimateMethod) == "loocv" || Lower(trainEstimateMethod) == "oob"
      ensures r.Err? ==> r.error == InvalidTrainEstimateMethod
      ensures Lower(trainEstimateMethod) == "loocv" ==>
        targets == SubsamplesOf(estimators) && preds == TrainPredictionsOf(estimators)
      ensures Lower(trainEstimateMethod) == "oob" ==>
        |preds| == |estimators| && OobPredict(estimators, xs, sfa, targets, preds)
      ensures r.Ok? ==>
        Weighable(targets, preds, weights, nCases, classes) && r.value == WeighedProbs(nCases, classes, targets, preds, weights)
      ensures r.Ok? ==>
        |r.value| == |xs| && forall t :: 0 <= t < |xs| ==> |r.value[t]| == |classes| && Distribution(r.value[t])
      ensures r.Ok? ==> forall n, i :: 0 <= n < |preds| && 0 <= i < |preds[n]| ==>
        Reached(nCases, classes, targets, preds, weights)[targets[n][i]] > 0.0
      ensures Lower(trainEstimateMethod) == "oob" ==> forall n :: 0 <= n < |preds| ==> |preds[n]| == |targets[n]|
    {
      var estimate := Lower(trainEstimateMethod);
      if estimate == "loocv" {
        var ts, ps := SubsamplesOf(estimators), TrainPredictionsOf(estimators);
        LooWeighable();
        Covered(ts, ps);
        var probs := WeighedProba(nCases, classes, ts, ps, weights);
        r, targets, preds := Ok(probs), ts, ps;
      } else if estimate == "oob" {
        var ts, ps := OobBallots(xs, sfa, coins);
        Covered(ts, ps);
        OobComplete(xs, sfa, ts, ps);
        var probs := WeighedProba(nCases, classes, ts, ps, weights);
        r, targets, preds := Ok(probs), ts, ps;
      } else {
        r, targets, preds := Err(InvalidTrainEstimateMethod), [], [];
      }
    }

    /** `n_estimators_ = len(estimators_)` and `_weight_sum = np.sum(weights_)`. */
    method Summarise()
      requires PoolReady() && |classes| >= 1
      modifies this`nEstimators, this`weightSum
      ensures Fitted() && nEstimators == |estimators| && weightSum == Sum(weights)
      ensures Maes() == old(Maes()) && MemberParams() == old(MemberParams())
      ensures prevParametersX == old(prevParametersX) && prevParametersY == old(prevParametersY)
      ensures nCases == old(nCases) && nChannels == old(nChannels) && nTimepoints == old(nTimepoints)
      ensures classes == old(classes)
    {
      ghost var es, ws := estimators, weights;
      ghost var maes := Maes();
      nEstimators := |estimators|;
      weightSum := Sum(weights);
      ReadyKept(es, ws, nChannels, nCases, classes);
    }
  }
}
