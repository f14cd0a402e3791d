/**
 * One member of the ensemble: a 1-nearest-neighbour classifier over the word
 * bags of its training cases, with histogram intersection as similarity.
 * Multivariate cases are first reduced to a selection of channels whose bags
 * are merged into one bag per case, each word tagged with its channel.
 */
module Member {
  import opened Common
  import opened Bags
  import opened Packing
  import opened ParameterSpace
  import opened Sfa

  /** `rng.random() < 0.5` on the k-th draw of a member's generator. */
  type CoinFlips = nat -> bool

  /** `rng.choice(n, k, replace=False)` of a member's seeded generator. */
  type Sampler = (nat, nat) -> seq<nat>

  ghost predicate IsSample(idx: seq<nat>, n: nat, k: nat)
  {
    |idx| == k && Distinct(idx) && forall j :: 0 <= j < |idx| ==> idx[j] < n
  }

  /** Whatever it draws, a sample without replacement has `k` distinct indices below `n`. */
  ghost predicate SamplesWithoutReplacement(choice: Sampler)
  {
    forall n: nat, k: nat :: k <= n ==> IsSample(choice(n, k), n, k)
  }

  /** The first position of the largest value (see `FirstMaxBest`). */
  function FirstMax(s: seq<int>): (r: nat)
    requires |s| > 0
    ensures r < |s|
    decreases |s|
  {
    if |s| == 1 then 0
    else
      var r := FirstMax(s[..|s| - 1]);
      if s[|s| - 1] > s[r] then |s| - 1 else r
  }

  /** Nothing is larger than the value at `FirstMax`, and everything before it is smaller. */
  lemma {:induction false} FirstMaxBest(s: seq<int>)
    requires |s| > 0
    ensures forall k :: 0 <= k < |s| ==> s[k] <= s[FirstMax(s)]
    ensures forall k :: 0 <= k < FirstMax(s) ==> s[k] < s[FirstMax(s)]
    decreases |s|
  {
    if |s| > 1 {
      var init := s[..|s| - 1];
      FirstMaxBest(init);
      assert forall k :: 0 <= k < |init| ==> init[k] == s[k];
    }
  }

  /** The first position of the largest value is the only one that is both. */
  lemma FirstMaxUnique(s: seq<int>, j: nat)
    requires j < |s|
    requires forall k :: 0 <= k < |s| ==> s[k] <= s[j]
    requires forall k :: 0 <= k < j ==> s[k] < s[j]
    ensures j == FirstMax(s)
  {
    FirstMaxBest(s);
  }

  /** Similarities of case `i` to every bag, with -1 standing for the case itself. */
  ghost function LooSims(bags: seq<Bag>, i: nat): seq<int>
    requires i < |bags|
  {
    seq(|bags|, n => if n == i || !(0 <= n < |bags|) then -1 else Sim(bags[i], bags[n]))
  }

  /**
   * The leave-one-out neighbour of case `i`: the first other bag whose
   * similarity to bag `i` is greatest (see `LooNeighbourBest`). It is never
   * `i` itself.
   */
  ghost function LooNeighbour(bags: seq<Bag>, i: nat): (j: nat)
    requires i < |bags| && |bags| >= 2
    ensures j < |bags| && j != i
  {
    var s := LooSims(bags, i);
    var other := if i == 0 then 1 else 0;
    assert s[other] >= 0;
    FirstMaxBest(s);
    FirstMax(s)
  }

  /** No other bag is more similar to bag `i`, and every bag before the neighbour is less similar. */
  lemma LooNeighbourBest(bags: seq<Bag>, i: nat)
    requires i < |bags| && |bags| >= 2
    ensures var j := LooNeighbour(bags, i);
      (forall n :: 0 <= n < |bags| && n != i ==> Sim(bags[i], bags[n]) <= Sim(bags[i], bags[j]))
      && (forall n :: 0 <= n < j && n != i ==> Sim(bags[i], bags[n]) < Sim(bags[i], bags[j]))
  {
    var s := LooSims(bags, i);
    FirstMaxBest(s);
    assert forall n :: 0 <= n < |bags| && n != i ==> s[n] == Sim(bags[i], bags[n]);
  }

  lemma LooNeighbourUnique(bags: seq<Bag>, i: nat, j: nat)
    requires i < |bags| && |bags| >= 2
    requires j < |bags| && j != i
    requires forall n :: 0 <= n < |bags| && n != i ==> Sim(bags[i], bags[n]) <= Sim(bags[i], bags[j])
    requires forall n :: 0 <= n < j && n != i ==> Sim(bags[i], bags[n]) < Sim(bags[i], bags[j])
    ensures j == LooNeighbour(bags, i)
  {
    FirstMaxUnique(LooSims(bags, i), j);
  }

  /** Sum over the first `m` cases of `|truth[i] - label of i's leave-one-out neighbour|`. */
  ghost function LooErrorSum(bags: seq<Bag>, truth: seq<int>, labels: seq<int>, m: nat): nat
    requires |bags| >= 2 && m <= |bags| && m <= |truth| && |bags| <= |labels|
  {
    if m == 0 then 0
    else LooErrorSum(bags, truth, labels, m - 1) + Abs(truth[m - 1] - LooLabel(bags, labels, m - 1))
  }

  /** The leave-one-out prediction for case `i`: the label of its neighbour (0 off the training set). */
  ghost function LooLabel(bags: seq<Bag>, labels: seq<int>, i: int): int
  {
    if |bags| >= 2 && 0 <= i < |bags| && |bags| <= |labels| then labels[LooNeighbour(bags, i)] else 0
  }

  /** The leave-one-out predictions of the first `m` cases, in case order. */
  ghost function LooPredictions(bags: seq<Bag>, labels: seq<int>, m: nat): seq<int>
    requires |bags| >= 2 && m <= |bags| && |bags| <= |labels|
  {
    seq(m, i => LooLabel(bags, labels, i))
  }

  /** Similarities of a test bag to every training bag. */
  ghost function TestSims(testBag: Bag, bags: seq<Bag>): seq<int>
  {
    seq(|bags|, n => if 0 <= n < |bags| then Sim(testBag, bags[n]) else 0)
  }

  /** `p` is the label of a training bag of greatest similarity to `testBag`. */
  ghost predicate NearestBy(testBag: Bag, bags: seq<Bag>, labels: seq<int>, p: Option<int>)
  {
    (p.None? <==> bags == [])
    && (p.Some? ==> exists j :: (0 <= j < |bags| && j < |labels| && p.value == labels[j]
         && forall k :: 0 <= k < |bags| ==> Sim(testBag, bags[k]) <= Sim(testBag, bags[j])))
  }

  /** Every prediction in `preds` is a known label of a most similar training bag of its test bag. */
  ghost predicate NearestAll(testBags: seq<Bag>, bags: seq<Bag>, labels: seq<int>, preds: seq<int>)
  {
    |preds| <= |testBags|
    && forall m :: 0 <= m < |preds| ==> preds[m] in labels && NearestBy(testBags[m], bags, labels, Some(preds[m]))
  }

  /** Where case `m` draws no coin that comes up, its prediction is the label of the first most similar bag. */
  ghost predicate FirstWhenNoCoins(testBags: seq<Bag>, bags: seq<Bag>, labels: seq<int>, preds: seq<int>,
                                   coins: nat -> CoinFlips)
  {
    |preds| <= |testBags| && 0 < |bags| <= |labels|
    && forall m :: 0 <= m < |preds| && (forall d :: !coins(m)(d)) ==>
      preds[m] == labels[FirstMax(TestSims(testBags[m], bags))]
  }

  /** One more prediction that is nearest extends a run of nearest predictions. */
  lemma NearestAppend(testBags: seq<Bag>, bags: seq<Bag>, labels: seq<int>, preds: seq<int>, p: int)
    requires NearestAll(testBags, bags, labels, preds) && |preds| < |testBags|
    requires p in labels && NearestBy(testBags[|preds|], bags, labels, Some(p))
    ensures NearestAll(testBags, bags, labels, preds + [p])
  {
    assert forall m :: 0 <= m < |preds| ==> (preds + [p])[m] == preds[m];
  }

  /** One more prediction that is the first nearest when no coin comes up extends such a run. */
  lemma FirstAppend(testBags: seq<Bag>, bags: seq<Bag>, labels: seq<int>, preds: seq<int>, coins: nat -> CoinFlips,
                    p: int, j: nat)
    requires FirstWhenNoCoins(testBags, bags, labels, preds, coins) && |preds| < |testBags|
    requires j < |bags| && p == labels[j]
    requires (forall d :: !coins(|preds|)(d)) ==> j == FirstMax(TestSims(testBags[|preds|], bags))
    ensures FirstWhenNoCoins(testBags, bags, labels, preds + [p], coins)
  {
    assert forall m :: 0 <= m < |preds| ==> (preds + [p])[m] == preds[m];
  }

  /** The smallest value of a non-empty sequence. */
  function MinReal(s: seq<real>): (r: real)
    requires |s| > 0
    ensures r in s
    ensures forall k :: 0 <= k < |s| ==> r <= s[k]
  {
    if |s| == 1 then s[0]
    else
      var m := MinReal(s[..|s| - 1]);
      assert m in s[..|s| - 1];
      if s[|s| - 1] < m then s[|s| - 1] else m
  }

  /** The channels below `k` whose error is within `limit`, in ascending order. */
  function Band(maes: seq<real>, limit: real, k: nat): (r: seq<nat>)
    requires k <= |maes|
    ensures forall j :: 0 <= j < |r| ==> r[j] < k
    ensures forall c: nat :: c in r <==> c < k && maes[c] <= limit
    ensures StrictlyIncreasing(r)
  {
    if k == 0 then []
    else
      var r := Band(maes, limit, k - 1);
      if maes[k - 1] <= limit then r + [k - 1] else r
  }

  /** The error limit of the band: the least error times `1 + (1 - dim_threshold)`. */
  function BandLimit(maes: seq<real>, dimThreshold: real): real
    requires |maes| > 0
  {
    MinReal(maes) * (1.0 + (1.0 - dimThreshold))
  }

  /** The channels whose error is within the band, in ascending order. */
  function DimBand(maes: seq<real>, dimThreshold: real): seq<nat>
    requires |maes| > 0
  {
    Band(maes, BandLimit(maes, dimThreshold), |maes|)
  }

  /**
   * The channels `_select_dims` keeps: those whose error is at most the least
   * error times `1 + (1 - dim_threshold)`, thinned to `max_dims` of them by a
   * draw without replacement when there are more.
   */
  ghost function DimSelection(maes: seq<real>, dimThreshold: real, maxDims: nat, choice: Sampler): seq<nat>
    requires |maes| > 0 && SamplesWithoutReplacement(choice)
  {
    var band := DimBand(maes, dimThreshold);
    if |band| > maxDims then
      assert IsSample(choice(|band|, maxDims), |band|, maxDims);
      Select(band, choice(|band|, maxDims))
    else band
  }

  /** Picking distinct positions of a strictly increasing sequence gives distinct values. */
  lemma SelectDistinct(band: seq<nat>, idx: seq<nat>)
    requires StrictlyIncreasing(band) && Distinct(idx)
    requires forall j :: 0 <= j < |idx| ==> idx[j] < |band|
    ensures Distinct(Select(band, idx))
  {
    var r := Select(band, idx);
    forall i, j | 0 <= i < |r| && 0 <= j < |r| && i != j
      ensures r[i] != r[j]
    {
      if idx[i] < idx[j] {
        assert band[idx[i]] < band[idx[j]];
      } else {
        assert band[idx[j]] < band[idx[i]];
      }
    }
  }

  lemma IncreasingDistinct(s: seq<nat>)
    requires StrictlyIncreasing(s)
    ensures Distinct(s)
  {
    forall i, j | 0 <= i < |s| && 0 <= j < |s| && i != j
      ensures s[i] != s[j]
    {
      if i < j {
        assert s[i] < s[j];
      } else {
        assert s[j] < s[i];
      }
    }
  }

  /**
   * The kept channels: at most `max_dims`, no channel twice, each a real
   * channel within the error band; in ascending order when none had to be
   * dropped.
   */
  lemma DimSelectionFacts(maes: seq<real>, dimThreshold: real, maxDims: nat, choice: Sampler)
    requires |maes| > 0 && SamplesWithoutReplacement(choice)
    ensures |DimSelection(maes, dimThreshold, maxDims, choice)| == Min(|DimBand(maes, dimThreshold)|, maxDims)
    ensures Distinct(DimSelection(maes, dimThreshold, maxDims, choice))
    ensures forall k :: 0 <= k < |DimSelection(maes, dimThreshold, maxDims, choice)| ==>
      DimSelection(maes, dimThreshold, maxDims, choice)[k] < |maes|
      && DimSelection(maes, dimThreshold, maxDims, choice)[k] in DimBand(maes, dimThreshold)
    ensures |DimBand(maes, dimThreshold)| <= maxDims ==>
      DimSelection(maes, dimThreshold, maxDims, choice) == DimBand(maes, dimThreshold)
  {
    var band := DimBand(maes, dimThreshold);
    if |band| > maxDims {
      var idx := choice(|band|, maxDims);
      assert IsSample(idx, |band|, maxDims);
      var dims := Select(band, idx);
      assert DimSelection(maes, dimThreshold, maxDims, choice) == dims;
      SelectDistinct(band, idx);
      forall k | 0 <= k < |dims|
        ensures dims[k] < |maes| && dims[k] in band
      {
        assert dims[k] == band[idx[k]];
      }
    } else {
      assert DimSelection(maes, dimThreshold, maxDims, choice) == band;
      IncreasingDistinct(band);
    }
  }

  lemma ScaleAtLeast(m: real, t: real)
    requires m >= 0.0 && t >= 1.0
    ensures m * t >= m
  {
    assert m * t - m == m * (t - 1.0);
  }

  lemma InBand(maes: seq<real>, limit: real, k: nat, c: nat)
    requires k <= |maes| && c < k && maes[c] <= limit
    ensures c in Band(maes, limit, k)
  {
  }

  lemma LimitAtLeastMin(maes: seq<real>, dimThreshold: real)
    requires |maes| > 0 && MinReal(maes) >= 0.0 && dimThreshold <= 1.0
    ensures BandLimit(maes, dimThreshold) >= MinReal(maes)
  {
    ScaleAtLeast(MinReal(maes), 1.0 + (1.0 - dimThreshold));
  }

  /** With `dim_threshold <= 1` the channel of least error is always in the band. */
  lemma LeastErrorChannelInBand(maes: seq<real>, dimThreshold: real)
    requires |maes| > 0
    requires forall k :: 0 <= k < |maes| ==> maes[k] >= 0.0
    requires dimThreshold <= 1.0
    ensures IndexOf(maes, MinReal(maes)) in DimBand(maes, dimThreshold)
  {
    var c: nat := IndexOf(maes, MinReal(maes));
    assert maes[c] >= 0.0;
    LimitAtLeastMin(maes, dimThreshold);
    InBand(maes, BandLimit(maes, dimThreshold), |maes|, c);
  }

  /** The leave-one-out mean error of a channel's bags. */
  ghost function ChannelMae(bags: seq<Bag>, y: seq<int>): real
    requires |bags| >= 2 && |bags| == |y|
  {
    LooErrorSum(bags, y, y, |bags|) as real / |bags| as real
  }

  /** The errors of all channels, each fitted on its own slice of the cases. */
  ghost function ChannelMaes(xs: seq<Case>, y: seq<int>, nChannels: nat, sfa: SfaTransform, blank: Transformer): seq<real>
    requires Honours(sfa) && |xs| == |y| && |xs| >= 2
    requires forall n :: 0 <= n < |xs| ==> |xs[n]| == nChannels
  {
    seq(nChannels, c requires 0 <= c < nChannels =>
      var slice := ChannelSlice(xs, c);
      ChannelMae(sfa(FitTransformer(blank, slice, y), slice), y))
  }

  /**
   * The second loop of `_select_dims`: the channels whose error is within
   * `limit`, in ascending order, each with its item (its fitted transformer).
   */
  method KeepWithinBand<T>(maes: seq<real>, limit: real, items: seq<T>) returns (kept: seq<nat>, keptItems: seq<T>)
    requires |items| == |maes|
    ensures kept == Band(maes, limit, |maes|)
    ensures |keptItems| == |kept|
    ensures forall k :: 0 <= k < |kept| ==> keptItems[k] == items[kept[k]]
  {
    kept, keptItems := [], [];
    for c := 0 to |maes|
      invariant kept == Band(maes, limit, c)
      invariant |keptItems| == |kept|
      invariant forall k :: 0 <= k < |kept| ==> keptItems[k] == items[kept[k]]
    {
      assert Band(maes, limit, c + 1) == if maes[c] <= limit then kept + [c] else kept;
      if maes[c] <= limit {
        kept := kept + [c];
        keptItems := keptItems + [items[c]];
      }
    }
  }

  /** Every case has `nChannels` channels. */
  ghost predicate HasChannels(xs: seq<Case>, nChannels: nat)
  {
    forall n :: 0 <= n < |xs| ==> |xs[n]| == nChannels
  }

  class IndividualOrdinalTde {
    const params: Params
    const alphabetSize: nat
    const bigrams: bool
    const dimThreshold: real
    const maxDims: nat
    const typedDict: bool

    var nCases: nat
    var nChannels: nat
    var classVals: seq<int>
    var transformers: seq<Transformer>
    var transformedData: seq<Bag>
    var dims: seq<nat>
    var highestDimBit: nat
    var subsample: seq<nat>
    var trainPredictions: seq<int>
    var mae: real

    /** A member with the given parameters, not yet fitted. */
    constructor(params: Params, alphabetSize: nat, bigrams: bool, dimThreshold: real, maxDims: nat, typedDict: bool)
      ensures this.params == params && this.alphabetSize == alphabetSize && this.bigrams == bigrams
      ensures this.dimThreshold == dimThreshold && this.maxDims == maxDims && this.typedDict == typedDict
      ensures nCases == 0 && nChannels == 0 && classVals == [] && transformers == []
      ensures transformedData == [] && dims == [] && highestDimBit == 0
      ensures subsample == [] && trainPredictions == [] && mae == 0.0
    {
      this.params := params;
      this.alphabetSize := alphabetSize;
      this.bigrams := bigrams;
      this.dimThreshold := dimThreshold;
      this.maxDims := maxDims;
      this.typedDict := typedDict;
      nCases, nChannels, classVals := 0, 0, [];
      transformers, transformedData, dims, highestDimBit := [], [], [], 0;
      subsample, trainPredictions, mae := [], [], 0.0;
    }

    /** A transformer with this member's parameters, not yet fitted. */
    function Blank(): Transformer
    {
      Transformer(params, alphabetSize, bigrams, typedDict, [], [])
    }

    /** Every transformer carries this member's parameters. */
    ghost predicate Consistent()
      reads this`transformers
    {
      forall k :: 0 <= k < |transformers| ==>
        transformers[k].params == params && transformers[k].typedDict == typedDict
    }

    /** The fitted state `_predict` relies on. */
    ghost predicate Fitted()
      reads this`nChannels, this`nCases, this`classVals, this`transformedData, this`transformers, this`dims, this`highestDimBit
    {
      nChannels >= 1 && nCases >= 1 && nCases == |classVals| == |transformedData|
      && Consistent()
      && (nChannels == 1 ==> |transformers| >= 1)
      && (nChannels > 1 ==> MergeReady() && Distinct(dims))
    }

    /** Being fitted depends only on what fitting sets. */
    twostate lemma FittedKept()
      requires old(Fitted())
      requires unchanged(this`nChannels, this`nCases, this`classVals, this`transformedData)
      requires unchanged(this`transformers, this`dims, this`highestDimBit)
      ensures Fitted()
    {
    }

    /** What the channel merge relies on: one transformer per kept channel, tags that fit. */
    ghost predicate MergeReady()
      reads this`nChannels, this`transformers, this`dims, this`highestDimBit
    {
      nChannels >= 1 && |transformers| == |dims| && Consistent()
      && (forall k :: 0 <= k < |dims| ==> dims[k] < nChannels)
      && highestDimBit == HighestDimBit(nChannels)
    }

    /**
     * `_train_predict(train_num, bags)`: the label of the leave-one-out
     * neighbour of case `train_num` among `bags` (the member's own bags when
     * none are given), or `None` when there is no other case.
     */
    method TrainPredict(trainNum: nat, bags: Option<seq<Bag>>) returns (nn: Option<int>)
      requires trainNum < |if bags.None? then transformedData else bags.value|
      requires |if bags.None? then transformedData else bags.value| <= |classVals|
      ensures var bs := if bags.None? then transformedData else bags.value;
        nn == if |bs| < 2 then None else Some(classVals[LooNeighbour(bs, trainNum)])
    {
      var bs := if bags.None? then transformedData else bags.value;
      var testBag := bs[trainNum];
      var bestSim: int := -1;
      ghost var best: nat := 0;
      nn := None;
      for n := 0 to |bs|
        invariant nn.None? <==> bestSim == -1
        invariant bestSim == -1 ==> n <= 1 && (n == 1 ==> trainNum == 0)
        invariant bestSim >= 0 ==> (best < n && best != trainNum
          && bestSim == Sim(testBag, bs[best]) && nn == Some(classVals[best]))
        invariant bestSim >= -1
        invariant forall k :: 0 <= k < n && k != trainNum ==> Sim(testBag, bs[k]) <= bestSim
        invariant bestSim >= 0 ==> forall k :: 0 <= k < best && k != trainNum ==> Sim(testBag, bs[k]) < bestSim
      {
        if n != trainNum {
          var sim := HistogramIntersection(testBag, bs[n]);
          if sim > bestSim {
            bestSim := sim;
            nn := Some(classVals[n]);
            best := n;
          }
        }
      }
      if |bs| >= 2 {
        var other := if trainNum == 0 then 1 else 0;
        assert other != trainNum;
        LooNeighbourUnique(bs, trainNum, best);
      }
    }

    /**
     * `_test_nn(test_bag)`: the label of a training bag of greatest
     * similarity; on an exact tie the current best is replaced when the next
     * coin comes up, and without any such coin it is the first of greatest
     * similarity.
     */
    method TestNn(testBag: Bag, coin: CoinFlips) returns (nn: Option<int>, ghost j: nat)
      requires |transformedData| <= |classVals|
      ensures NearestBy(testBag, transformedData, classVals, nn)
      ensures nn.Some? ==> j < |transformedData| && nn.value == classVals[j]
      ensures nn.Some? && (forall d :: !coin(d)) ==> j == FirstMax(TestSims(testBag, transformedData))
    {
      var bestSim: int := -1;
      var draws: nat := 0;
      nn, j := None, 0;
      for n := 0 to |transformedData|
        invariant nn.None? <==> n == 0
        invariant n == 0 ==> bestSim == -1
        invariant n > 0 ==> j < n && bestSim == Sim(testBag, transformedData[j]) && nn == Some(classVals[j])
        invariant forall k :: 0 <= k < n ==> Sim(testBag, transformedData[k]) <= bestSim
        invariant (forall d :: !coin(d)) && n > 0 ==>
          forall k :: 0 <= k < j ==> Sim(testBag, transformedData[k]) < bestSim
      {
        var sim := HistogramIntersection(testBag, transformedData[n]);
        var replace := sim > bestSim;
        if !replace && sim == bestSim {
          replace := coin(draws);
          draws := draws + 1;
        }
        if replace {
          bestSim := sim;
          nn := Some(classVals[n]);
          j := n;
        }
      }
      if nn.Some? && (forall d :: !coin(d)) {
        FirstMaxUnique(TestSims(testBag, transformedData), j);
      }
    }

    lemma DimsFit()
      requires MergeReady()
      ensures forall j :: 0 <= j < |dims| ==> dims[j] < Pow2(highestDimBit)
    {
      forall j | 0 <= j < |dims|
        ensures dims[j] < Pow2(highestDimBit)
      {
        ChannelFits(nChannels, dims[j]);
      }
    }

    /** The bags of case `n` in the first `i` kept channels, each from its own transformer. */
    ghost function CaseChannels(xs: seq<Case>, sfa: SfaTransform, n: nat, i: nat): (r: seq<Bag>)
      reads this
      requires MergeReady() && Honours(sfa) && HasChannels(xs, nChannels)
      requires n < |xs| && i <= |dims|
      ensures |r| == i
      ensures ChannelsFit(r, dims[..i], highestDimBit, typedDict, params.levels)
    {
      DimsFit();
      var ts, ds := transformers, dims;
      var r := seq(i, j requires 0 <= j < i => sfa(ts[j], ChannelSlice(xs, ds[j]))[n]);
      assert forall j :: 0 <= j < i ==>
        Shaped(sfa(ts[j], ChannelSlice(xs, ds[j]))[n], ts[j].typedDict, ts[j].params.levels);
      r
    }

    /** The bag of case `n` once the first `i` kept channels have been merged into it. */
    ghost function MergedUpTo(xs: seq<Case>, sfa: SfaTransform, n: nat, i: nat): Bag
      reads this
      requires MergeReady() && Honours(sfa) && HasChannels(xs, nChannels)
      requires n < |xs| && i <= |dims|
    {
      MergedBag(CaseChannels(xs, sfa, n, i), dims[..i], highestDimBit, typedDict, params.levels)
    }

    /** Merging channel `i` adds its tagged words on top of the channels before it. */
    lemma MergedUpToStep(xs: seq<Case>, sfa: SfaTransform, n: nat, i: nat)
      requires MergeReady() && Honours(sfa) && HasChannels(xs, nChannels)
      requires n < |xs| && i < |dims| && dims[i] < Pow2(highestDimBit)
      ensures MergedUpTo(xs, sfa, n, i + 1) ==
        MergedUpTo(xs, sfa, n, i)
        + TaggedBag(sfa(transformers[i], ChannelSlice(xs, dims[i]))[n], dims[i], highestDimBit, typedDict, params.levels)
    {
      var next, prev := CaseChannels(xs, sfa, n, i + 1), CaseChannels(xs, sfa, n, i);
      var ds := dims[..i + 1];
      assert next[..i] == prev;
      assert ds[..i] == dims[..i];
      assert next[i] == sfa(transformers[i], ChannelSlice(xs, dims[i]))[n];
      assert ds[i] == dims[i];
      assert MergedBag(next, ds, highestDimBit, typedDict, params.levels)
        == MergedBag(next[..i], ds[..i], highestDimBit, typedDict, params.levels)
        + TaggedBag(next[i], ds[i], highestDimBit, typedDict, params.levels);
    }

    /** Writes every word of one channel's bag into `bag` under its tagged key. */
    method MergeChannelInto(bag: Bag, source: Bag, dim: nat) returns (merged: Bag)
      requires Shaped(source, typedDict, params.levels) && dim < Pow2(highestDimBit)
      ensures merged == bag + TaggedBag(source, dim, highestDimBit, typedDict, params.levels)
    {
      var b, levels := highestDimBit, params.levels;
      ghost var tag := Tagger(dim, b, typedDict, levels);
      TaggerInjective(source, dim, b, typedDict, levels);
      merged := bag;
      var pending := source.Keys;
      while pending != {}
        invariant pending <= source.Keys
        invariant InjectiveOn(tag, source.Keys - pending)
        invariant merged == bag + Rekey(source, source.Keys - pending, tag)
        decreases |pending|
      {
        var word :| word in pending;
        RekeyStep(bag, source, pending, merged, word, dim, b, typedDict, levels);
        merged := merged[ChannelKey(word, dim, b, typedDict, levels) := source[word]];
        pending := pending - {word};
      }
      assert source.Keys - pending == source.Keys;
    }

    /**
     * The merged bags of every case: each kept channel re-keyed with its
     * channel tag, later channels written over earlier ones.
     */
    method MergeChannelWords(xs: seq<Case>, sfa: SfaTransform) returns (words: seq<Bag>)
      requires MergeReady() && Honours(sfa) && HasChannels(xs, nChannels)
      ensures |words| == |xs|
      ensures forall n :: 0 <= n < |xs| ==> words[n] == MergedUpTo(xs, sfa, n, |dims|)
    {
      words := seq(|xs|, n => map[]);
      DimsFit();
      for i := 0 to |dims|
        invariant |words| == |xs|
        invariant forall n :: 0 <= n < |xs| ==> words[n] == MergedUpTo(xs, sfa, n, i)
      {
        var dim := dims[i];
        var dimWords := sfa(transformers[i], ChannelSlice(xs, dim));
        for n := 0 to |xs|
          invariant |words| == |xs|
          invariant forall m :: 0 <= m < n ==> words[m] == MergedUpTo(xs, sfa, m, i + 1)
          invariant forall m :: n <= m < |xs| ==> words[m] == MergedUpTo(xs, sfa, m, i)
        {
          var bag := MergeChannelInto(words[n], dimWords[n], dim);
          MergedUpToStep(xs, sfa, n, i);
          words := words[n := bag];
        }
      }
    }

    /** The leave-one-out mean absolute error of one channel's bags. */
    method LooMae(bags: seq<Bag>) returns (mae: real)
      requires |bags| == |classVals| >= 2
      ensures mae == ChannelMae(bags, classVals)
    {
      var labels := classVals;
      var total: nat := 0;
      for n := 0 to |bags|
        invariant total == LooErrorSum(bags, labels, labels, n)
      {
        var nn := TrainPredict(n, Some(bags));
        total := total + Abs(labels[n] - nn.value);
      }
      mae := total as real / |bags| as real;
    }

    /**
     * The first loop of `_select_dims`: every channel's transformer, fitted
     * on that channel alone, and the leave-one-out error of its bags.
     */
    method ChannelErrors(xs: seq<Case>, y: seq<int>, sfa: SfaTransform)
      returns (maes: seq<real>, fitted: seq<Transformer>)
      requires HasChannels(xs, nChannels)
      requires |xs| == |y| >= 2 && classVals == y
      requires Honours(sfa)
      ensures maes == ChannelMaes(xs, y, nChannels, sfa, Blank())
      ensures |fitted| == nChannels
      ensures forall k :: 0 <= k < nChannels ==> fitted[k] == FitTransformer(Blank(), ChannelSlice(xs, k), y)
    {
      ghost var expected := ChannelMaes(xs, y, nChannels, sfa, Blank());
      maes, fitted := [], [];
      for c := 0 to nChannels
        invariant |maes| == c && |fitted| == c
        invariant forall k :: 0 <= k < c ==> maes[k] == expected[k]
        invariant forall k :: 0 <= k < c ==> fitted[k] == FitTransformer(Blank(), ChannelSlice(xs, k), y)
      {
        var slice := ChannelSlice(xs, c);
        var t := FitTransformer(Blank(), slice, y);
        var mae := LooMae(sfa(t, slice));
        maes := maes + [mae];
        fitted := fitted + [t];
      }
    }

    /**
     * `_select_dims(X, y)`: fits a transformer on every channel alone,
     * measures the leave-one-out mean absolute error of its bags, keeps the
     * channels within the error band and, when there are more than
     * `max_dims` of them, a sample of `max_dims`.
     */
    method SelectDims(xs: seq<Case>, y: seq<int>, sfa: SfaTransform, choice: Sampler)
      returns (selDims: seq<nat>, selTransformers: seq<Transformer>)
      requires nChannels >= 1 && HasChannels(xs, nChannels)
      requires |xs| == |y| >= 2 && classVals == y
      requires Honours(sfa) && SamplesWithoutReplacement(choice)
      modifies this`highestDimBit
      ensures highestDimBit == HighestDimBit(nChannels)
      ensures selDims == DimSelection(ChannelMaes(xs, y, nChannels, sfa, Blank()), dimThreshold, maxDims, choice)
      ensures |selTransformers| == |selDims|
      ensures forall k :: 0 <= k < |selDims| ==>
        selDims[k] < nChannels && selTransformers[k] == FitTransformer(Blank(), ChannelSlice(xs, selDims[k]), y)
    {
      highestDimBit := HighestDimBit(nChannels);
      var maes, fitted := ChannelErrors(xs, y, sfa);
      var limit := BandLimit(maes, dimThreshold);
      selDims, selTransformers := KeepWithinBand(maes, limit, fitted);
      if |selDims| > maxDims {
        var idx := choice(|selDims|, maxDims);
        assert IsSample(idx, |selDims|, maxDims);
        selDims, selTransformers := Select(selDims, idx), Select(selTransformers, idx);
      }
    }

    /** The multivariate branch of `_fit`: channel selection, then the merge of the kept channels. */
    method FitChannels(xs: seq<Case>, y: seq<int>, sfa: SfaTransform, choice: Sampler)
      requires nChannels > 1 && HasChannels(xs, nChannels)
      requires |xs| == |y| >= 2 && classVals == y
      requires Honours(sfa) && SamplesWithoutReplacement(choice)
      modifies this`dims, this`transformers, this`transformedData, this`highestDimBit
      ensures MergeReady() && Distinct(dims)
      ensures highestDimBit == HighestDimBit(nChannels)
      ensures dims == DimSelection(ChannelMaes(xs, y, nChannels, sfa, Blank()), dimThreshold, maxDims, choice)
      ensures |transformers| == |dims|
      ensures forall k :: 0 <= k < |dims| ==>
        transformers[k] == FitTransformer(Blank(), ChannelSlice(xs, dims[k]), y)
      ensures |transformedData| == |xs|
      ensures forall n :: 0 <= n < |xs| ==> transformedData[n] == MergedUpTo(xs, sfa, n, |dims|)
    {
      dims, transformers := SelectDims(xs, y, sfa, choice);
      DimSelectionFacts(ChannelMaes(xs, y, nChannels, sfa, Blank()), dimThreshold, maxDims, choice);
      transformedData := MergeChannelWords(xs, sfa);
    }

    /** The univariate branch of `_fit`: append a transformer, fit the first one, keep its bags. */
    method FitSingle(xs: seq<Case>, y: seq<int>, sfa: SfaTransform)
      requires Consistent() && Honours(sfa)
      modifies this`transformers, this`transformedData
      ensures Consistent() && |transformers| >= 1
      ensures var appended := old(transformers) + [Blank()];
        transformers == appended[0 := FitTransformer(appended[0], xs, y)]
      ensures transformedData == sfa(transformers[0], xs) && |transformedData| == |xs|
    {
      transformers := transformers + [Blank()];
      transformers := transformers[0 := FitTransformer(transformers[0], xs, y)];
      transformedData := sfa(transformers[0], xs);
    }

    /**
     * `_fit(X, y)`. With one channel: a new transformer is appended, the
     * first transformer is fitted and its bags of `X` become the training
     * bags. With several: the channels are selected and the bags of the kept
     * channels are merged into one bag per case.
     */
    method Fit(xs: seq<Case>, y: seq<int>, sfa: SfaTransform, choice: Sampler)
      requires |xs| == |y| >= 1 && |xs[0]| >= 1 && HasChannels(xs, |xs[0]|)
      requires |xs[0]| > 1 ==> |xs| >= 2
      requires Honours(sfa) && SamplesWithoutReplacement(choice) && Consistent()
      modifies this
      ensures nCases == |xs| && nChannels == |xs[0]| && classVals == y
      ensures Fitted()
      ensures nChannels == 1 ==>
        var appended := old(transformers) + [Blank()];
        transformers == appended[0 := FitTransformer(appended[0], xs, y)]
        && transformedData == sfa(transformers[0], xs)
        && dims == old(dims) && highestDimBit == old(highestDimBit)
      ensures nChannels > 1 ==>
        highestDimBit == HighestDimBit(nChannels)
        && dims == DimSelection(ChannelMaes(xs, y, nChannels, sfa, Blank()), dimThreshold, maxDims, choice)
        && |transformers| == |dims|
        && (forall k :: 0 <= k < |dims| ==>
              transformers[k] == FitTransformer(Blank(), ChannelSlice(xs, dims[k]), y))
        && |transformedData| == |xs|
        && (forall n :: 0 <= n < |xs| ==> transformedData[n] == MergedUpTo(xs, sfa, n, |dims|))
      ensures subsample == old(subsample) && trainPredictions == old(trainPredictions) && mae == old(mae)
    {
      nCases, nChannels, classVals := |xs|, |xs[0]|, y;
      if nChannels > 1 {
        FitChannels(xs, y, sfa, choice);
      } else {
        FitSingle(xs, y, sfa);
      }
    }

    /** The bags `_predict` compares with the training bags, one per case of `xs`. */
    ghost function TestBags(xs: seq<Case>, sfa: SfaTransform): (r: seq<Bag>)
      reads this
      requires Fitted() && Honours(sfa)
      requires nChannels > 1 ==> HasChannels(xs, nChannels)
      ensures |r| == |xs|
    {
      if nChannels > 1 then
        seq(|xs|, n requires 0 <= n < |xs| && MergeReady() && Honours(sfa) && HasChannels(xs, nChannels)
                    reads this => MergedUpTo(xs, sfa, n, |dims|))
      else sfa(transformers[0], xs)
    }

    /** `preds` is one possible outcome of `_predict(xs)`: a nearest training label for every case. */
    ghost predicate Predicts(xs: seq<Case>, sfa: SfaTransform, preds: seq<int>)
      reads this
    {
      Fitted() && Honours(sfa) && (nChannels > 1 ==> HasChannels(xs, nChannels))
      && |preds| == |xs| && NearestAll(TestBags(xs, sfa), transformedData, classVals, preds)
    }

    /**
     * `_predict(X)`: for every case the label of a training bag of greatest
     * similarity to its bag; the k-th case draws its tie-breaking coins from
     * `coins(k)`, and where no coin ever comes up the first such bag wins.
     */
    method Predict(xs: seq<Case>, sfa: SfaTransform, coins: nat -> CoinFlips) returns (preds: seq<int>)
      requires Fitted() && Honours(sfa)
      requires nChannels > 1 ==> HasChannels(xs, nChannels)
      ensures Predicts(xs, sfa, preds)
      ensures forall n :: 0 <= n < |xs| && (forall d :: !coins(n)(d)) ==>
        preds[n] == classVals[FirstMax(TestSims(TestBags(xs, sfa)[n], transformedData))]
    {
      var testBags: seq<Bag>;
      if nChannels > 1 {
        testBags := MergeChannelWords(xs, sfa);
      } else {
        testBags := sfa(transformers[0], xs);
      }
      assert testBags == TestBags(xs, sfa);
      preds := NearestLabels(testBags, coins);
    }

    /** `_test_nn` applied to every test bag in turn. */
    method NearestLabels(testBags: seq<Bag>, coins: nat -> CoinFlips) returns (preds: seq<int>)
      requires |transformedData| == |classVals| >= 1
      ensures |preds| == |testBags|
      ensures NearestAll(testBags, transformedData, classVals, preds)
      ensures FirstWhenNoCoins(testBags, transformedData, classVals, preds, coins)
    {
      preds := [];
      for n := 0 to |testBags|
        invariant |preds| == n
        invariant NearestAll(testBags, transformedData, classVals, preds)
        invariant FirstWhenNoCoins(testBags, transformedData, classVals, preds, coins)
      {
        var nn, j := TestNn(testBags[n], coins(n));
        NearestAppend(testBags, transformedData, classVals, preds, nn.value);
        FirstAppend(testBags, transformedData, classVals, preds, coins, nn.value, j);
        preds := preds + [nn.value];
      }
    }
  }
}