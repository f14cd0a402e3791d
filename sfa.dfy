/**
 * The symbolic Fourier approximation (SFA) transform as the member classifier
 * sees it: a fitted transformer turns every case it is given into one bag of
 * words. Its internals (the Fourier coefficients, the binning, the words) are
 * outside this model; only the shape of its output is relied on.
 */
module Sfa {
  import opened Bags
  import opened Packing
  import opened ParameterSpace

  /** One channel of a case: its values over time. */
  type Series = seq<real>

  /** A case: one series per channel. */
  type Case = seq<Series>

  /**
   * A transformer built with a member's parameters, together with the cases
   * and labels it was fitted on (both empty before it is fitted).
   */
  datatype Transformer = Transformer(
    params: Params, alphabetSize: nat, bigrams: bool, typedDict: bool,
    fitCases: seq<Case>, fitLabels: seq<int>)

  /** `transformer.transform(X)`: the bags of the cases `X`, in order. */
  type SfaTransform = (Transformer, seq<Case>) -> seq<Bag>

  /**
   * What the model relies on of the transform: one bag per case, and keys
   * that are (word, level) pairs exactly when typed dictionaries are used
   * with more than one level.
   */
  ghost predicate Honours(sfa: SfaTransform)
  {
    forall t: Transformer, xs: seq<Case> ::
      |sfa(t, xs)| == |xs|
      && forall n :: 0 <= n < |xs| ==> Shaped(sfa(t, xs)[n], t.typedDict, t.params.levels)
  }

  /** `transformer.fit(X, y)`: the same transformer, now fitted on `X` and `y`. */
  function FitTransformer(t: Transformer, xs: seq<Case>, y: seq<int>): Transformer
  {
    t.(fitCases := xs, fitLabels := y)
  }

  /** `X[:, d, :]` kept three-dimensional: every case reduced to its channel `d`. */
  function ChannelSlice(xs: seq<Case>, d: nat): seq<Case>
    requires forall n :: 0 <= n < |xs| ==> d < |xs[n]|
  {
    seq(|xs|, n requires 0 <= n < |xs| => [xs[n][d]])
  }
}
