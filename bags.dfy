/**
 * Word bags and the histogram intersection similarity used by the
 * nearest-neighbour search of an Ordinal TDE member.
 *
 * A bag maps a symbolic key to its number of occurrences in one case. Keys
 * are either a plain word or a pair: the symbolic transform emits pairs
 * (word, pyramid level) when it uses typed dictionaries with more than one
 * level, and the multivariate member re-keys words as pairs carrying a
 * channel tag.
 */
module Bags {
  import opened Common

  datatype Key = Word(word: nat) | Pair(first: nat, second: nat)

  type Bag = map<Key, nat>

  /** Sum of `min(a[k], b[k])` over the keys `ks`, all shared by `a` and `b`. */
  ghost function SharedMin(ks: set<Key>, a: Bag, b: Bag): nat
    requires ks <= a.Keys * b.Keys
    decreases ks
  {
    if ks == {} then 0
    else
      var k :| k in ks;
      Min(a[k], b[k]) + SharedMin(ks - {k}, a, b)
  }

  /** Sum of the counts of `a` over the keys `ks`. */
  ghost function Counts(ks: set<Key>, a: Bag): nat
    requires ks <= a.Keys
    decreases ks
  {
    if ks == {} then 0
    else
      var k :| k in ks;
      a[k] + Counts(ks - {k}, a)
  }

  /** Histogram intersection: the shared keys, each weighed by its smaller count. */
  ghost function Sim(a: Bag, b: Bag): nat
  {
    SharedMin(a.Keys * b.Keys, a, b)
  }

  /** The number of words in a bag. */
  ghost function Total(a: Bag): nat
  {
    Counts(a.Keys, a)
  }

  lemma {:induction false} SharedMinRemove(ks: set<Key>, a: Bag, b: Bag, x: Key)
    requires ks <= a.Keys * b.Keys
    requires x in ks
    ensures SharedMin(ks, a, b) == Min(a[x], b[x]) + SharedMin(ks - {x}, a, b)
    decreases ks
  {
    var k :| k in ks && SharedMin(ks, a, b) == Min(a[k], b[k]) + SharedMin(ks - {k}, a, b);
    if k != x {
      SharedMinRemove(ks - {k}, a, b, x);
      SharedMinRemove(ks - {x}, a, b, k);
      assert ks - {k} - {x} == ks - {x} - {k};
    }
  }

  lemma {:induction false} CountsRemove(ks: set<Key>, a: Bag, x: Key)
    requires ks <= a.Keys
    requires x in ks
    ensures Counts(ks, a) == a[x] + Counts(ks - {x}, a)
    decreases ks
  {
    var k :| k in ks && Counts(ks, a) == a[k] + Counts(ks - {k}, a);
    if k != x {
      CountsRemove(ks - {k}, a, x);
      CountsRemove(ks - {x}, a, k);
      assert ks - {k} - {x} == ks - {x} - {k};
    }
  }

  lemma {:induction false} SharedMinSymmetric(ks: set<Key>, a: Bag, b: Bag)
    requires ks <= a.Keys * b.Keys
    ensures SharedMin(ks, a, b) == SharedMin(ks, b, a)
    decreases ks
  {
    if ks != {} {
      var k :| k in ks;
      SharedMinRemove(ks, a, b, k);
      SharedMinRemove(ks, b, a, k);
      SharedMinSymmetric(ks - {k}, a, b);
    }
  }

  lemma {:induction false} SharedMinSelf(ks: set<Key>, a: Bag)
    requires ks <= a.Keys
    ensures SharedMin(ks, a, a) == Counts(ks, a)
    decreases ks
  {
    if ks != {} {
      var k :| k in ks;
      SharedMinRemove(ks, a, a, k);
      CountsRemove(ks, a, k);
      SharedMinSelf(ks - {k}, a);
    }
  }

  lemma {:induction false} SharedMinBelowCounts(ks: set<Key>, a: Bag, b: Bag)
    requires ks <= a.Keys * b.Keys
    ensures SharedMin(ks, a, b) <= Counts(ks, a)
    decreases ks
  {
    if ks != {} {
      var k :| k in ks;
      SharedMinRemove(ks, a, b, k);
      CountsRemove(ks, a, k);
      SharedMinBelowCounts(ks - {k}, a, b);
    }
  }

  lemma {:induction false} CountsMonotone(small: set<Key>, large: set<Key>, a: Bag)
    requires small <= large <= a.Keys
    ensures Counts(small, a) <= Counts(large, a)
    decreases large
  {
    if small != large {
      assert exists k :: k in large && k !in small;
      var k :| k in large && k !in small;
      CountsRemove(large, a, k);
      CountsMonotone(small, large - {k}, a);
    }
  }

  /** Similarity does not depend on the order of its arguments. */
  lemma SimSymmetric(a: Bag, b: Bag)
    ensures Sim(a, b) == Sim(b, a)
  {
    assert a.Keys * b.Keys == b.Keys * a.Keys;
    SharedMinSymmetric(a.Keys * b.Keys, a, b);
  }

  /** A bag is as similar to itself as it has words. */
  lemma SimSelf(a: Bag)
    ensures Sim(a, a) == Total(a)
  {
    assert a.Keys * a.Keys == a.Keys;
    SharedMinSelf(a.Keys, a);
  }

  /** Similarity never exceeds the word count of either bag. */
  lemma SimBounded(a: Bag, b: Bag)
    ensures Sim(a, b) <= Total(a) && Sim(a, b) <= Total(b)
  {
    SharedMinBelowCounts(a.Keys * b.Keys, a, b);
    CountsMonotone(a.Keys * b.Keys, a.Keys, a);
    SimSymmetric(a, b);
    SharedMinBelowCounts(b.Keys * a.Keys, b, a);
    CountsMonotone(b.Keys * a.Keys, b.Keys, b);
  }

  /** A bag with no words shares nothing. */
  lemma SimEmpty(a: Bag)
    ensures Sim(a, map[]) == 0 && Sim(map[], a) == 0
  {
    var e: Bag := map[];
    assert a.Keys * e.Keys == {};
    assert e.Keys * a.Keys == {};
  }

  /**
   * `histogram_intersection(first, second)`: for every word of the first bag,
   * add the smaller of its two counts (a word missing from `second` counts 0).
   */
  method HistogramIntersection(first: Bag, second: Bag) returns (sim: nat)
    ensures sim == Sim(first, second)
  {
    sim := 0;
    var rest := first.Keys;
    while rest != {}
      invariant rest <= first.Keys
      invariant sim + SharedMin(rest * second.Keys, first, second) == Sim(first, second)
      decreases rest
    {
      var word :| word in rest;
      var valB := if word in second then second[word] else 0;
      if word in second {
        SharedMinRemove(rest * second.Keys, first, second, word);
        assert (rest * second.Keys) - {word} == (rest - {word}) * second.Keys;
      } else {
        assert rest * second.Keys == (rest - {word}) * second.Keys;
      }
      sim := sim + Min(first[word], valB);
      rest := rest - {word};
    }
  }
}
