/**
 * Channel tagging of words for multivariate members.
 *
 * A multivariate member merges the bags of its selected channels into one bag
 * per case, tagging every word with its channel so that equal words from
 * different channels stay apart. The tag is packed into the low bits of an
 * integer, `(word << highest_dim_bit) | dim`, with
 * `highest_dim_bit = ceil(log2(n_channels)) + 1`. The shift and the bitwise or
 * are written out on unbounded naturals, as Python computes them.
 */
module Packing {
  import opened Common
  import opened Bags

  function Pow2(b: nat): (r: nat)
    ensures r >= 1
  {
    if b == 0 then 1 else 2 * Pow2(b - 1)
  }

  /** `math.ceil(math.log2(n))`: the least `b` with `n <= 2^b`. */
  function CeilLog2(n: nat): (b: nat)
    requires n >= 1
    ensures n <= Pow2(b)
    ensures b == 0 || Pow2(b - 1) < n
    decreases n
  {
    if n <= 1 then 0 else 1 + CeilLog2((n + 1) / 2)
  }

  /** `_highest_dim_bit`, set when channels are selected. */
  function HighestDimBit(nChannels: nat): nat
    requires nChannels >= 1
  {
    CeilLog2(nChannels) + 1
  }

  /** Every channel index fits below the tag width. */
  lemma ChannelFits(nChannels: nat, dim: nat)
    requires dim < nChannels
    ensures dim < Pow2(HighestDimBit(nChannels))
  {
  }

  /** Python `x << b`. */
  function ShiftLeft(x: nat, b: nat): nat
  {
    x * Pow2(b)
  }

  /** Python `x >> b`. */
  function ShiftRight(x: nat, b: nat): int
  {
    x / Pow2(b)
  }

  /** Python `x | y` on non-negative integers, bit by bit from the lowest. */
  function BitOr(x: nat, y: nat): nat
    decreases x + y
  {
    if x == 0 then y
    else if y == 0 then x
    else 2 * BitOr(x / 2, y / 2) + (if x % 2 == 1 || y % 2 == 1 then 1 else 0)
  }

  /** Python `x & (2^b - 1)`: the lowest `b` bits of `x`. */
  function LowBits(x: nat, b: nat): nat
  {
    if b == 0 then 0 else 2 * LowBits(x / 2, b - 1) + x % 2
  }

  /** The packed key `(word << b) | dim` of a word from channel `dim`. */
  function PackWord(word: nat, dim: nat, b: nat): nat
  {
    BitOr(ShiftLeft(word, b), dim)
  }

  /** With the low `b` bits of the shifted word free, the or is an addition. */
  lemma {:induction false} PackIsSum(word: nat, dim: nat, b: nat)
    requires dim < Pow2(b)
    ensures PackWord(word, dim, b) == word * Pow2(b) + dim
    decreases b
  {
    if b == 0 {
      assert dim == 0;
    } else if word == 0 || dim == 0 {
    } else {
      var x := word * Pow2(b);
      assert x == 2 * (word * Pow2(b - 1));
      DivModUnique(x, 2, word * Pow2(b - 1), 0);
      DivModUnique(dim, 2, dim / 2, dim % 2);
      assert dim / 2 < Pow2(b - 1);
      PackIsSum(word, dim / 2, b - 1);
      assert BitOr(x, dim) == 2 * BitOr(x / 2, dim / 2) + dim % 2;
    }
  }

  lemma DivModSplit(x: int, d: int)
    requires d > 0
    ensures x == d * (x / d) + x % d && 0 <= x % d < d
  {
  }

  lemma DoubleProduct(p: int, u: int)
    ensures (2 * p) * u == 2 * (p * u)
  {
  }

  /** Masking with `2^b - 1` keeps the remainder modulo `2^b`. */
  lemma {:induction false} LowBitsIsMod(x: nat, b: nat)
    ensures LowBits(x, b) == x % Pow2(b)
    decreases b
  {
    if b > 0 {
      var p, h, r := Pow2(b - 1), x / 2, x % 2;
      LowBitsIsMod(h, b - 1);
      DivModSplit(h, p);
      var u, v := h / p, h % p;
      DoubleProduct(p, u);
      assert x == (2 * p) * u + (2 * v + r);
      DivModUnique(x, 2 * p, u, 2 * v + r);
    }
  }

  /** The channel comes back out of the low bits and the word out of the high bits. */
  lemma PackUnpack(word: nat, dim: nat, b: nat)
    requires dim < Pow2(b)
    ensures LowBits(PackWord(word, dim, b), b) == dim
    ensures ShiftRight(PackWord(word, dim, b), b) == word
  {
    PackIsSum(word, dim, b);
    SumDivMod(word, dim, b);
  }

  lemma SumDivMod(word: nat, dim: nat, b: nat)
    requires dim < Pow2(b)
    ensures LowBits(word * Pow2(b) + dim, b) == dim
    ensures (word * Pow2(b) + dim) / Pow2(b) == word
  {
    var p := Pow2(b);
    var key := word * p + dim;
    DivModUnique(key, p, word, dim);
    LowBitsIsMod(key, b);
  }

  /** Distinct (word, channel) pairs never share a packed key. */
  lemma PackInjective(w1: nat, d1: nat, w2: nat, d2: nat, b: nat)
    requires d1 < Pow2(b) && d2 < Pow2(b)
    requires PackWord(w1, d1, b) == PackWord(w2, d2, b)
    ensures w1 == w2 && d1 == d2
  {
    PackUnpack(w1, d1, b);
    PackUnpack(w2, d2, b);
  }

  /**
   * The shape of the keys the symbolic transform emits: a pair (word, level)
   * with typed dictionaries and more than one pyramid level, a plain word
   * otherwise.
   */
  predicate KeyShaped(k: Key, typedDict: bool, levels: nat)
  {
    k.Pair? <==> (typedDict && levels > 1)
  }

  ghost predicate Shaped(bag: Bag, typedDict: bool, levels: nat)
  {
    forall k :: k in bag ==> KeyShaped(k, typedDict, levels)
  }

  /**
   * The key a word of channel `dim` gets in the merged bag: with typed
   * dictionaries `(word[0], word[1] << b | dim)` for more than one level and
   * `(word, dim)` for one level; otherwise `word << b | dim`.
   */
  function ChannelKey(k: Key, dim: nat, b: nat, typedDict: bool, levels: nat): Key
    requires KeyShaped(k, typedDict, levels)
  {
    if typedDict then
      if levels > 1 then Pair(k.first, PackWord(k.second, dim, b)) else Pair(k.word, dim)
    else Word(PackWord(k.word, dim, b))
  }

  /** The channel a merged key was tagged with: `dim == key & (2^b - 1)`. */
  function ChannelOf(key: Key, b: nat, typedDict: bool, levels: nat): nat
  {
    match key
    case Pair(_, tag) => if levels > 1 then LowBits(tag, b) else tag
    case Word(w) => LowBits(w, b)
  }

  /** The tag written into a merged key is the one read back out of it. */
  lemma ChannelKeyTag(k: Key, dim: nat, b: nat, typedDict: bool, levels: nat)
    requires KeyShaped(k, typedDict, levels)
    requires dim < Pow2(b)
    ensures ChannelOf(ChannelKey(k, dim, b, typedDict, levels), b, typedDict, levels) == dim
  {
    match k
    case Pair(_, s) => PackUnpack(s, dim, b);
    case Word(w) =>
      if !typedDict {
        PackUnpack(w, dim, b);
      }
  }

  /** Merged keys never collide: the (word, channel) pair is recoverable. */
  lemma ChannelKeyInjective(k1: Key, d1: nat, k2: Key, d2: nat, b: nat, typedDict: bool, levels: nat)
    requires KeyShaped(k1, typedDict, levels) && KeyShaped(k2, typedDict, levels)
    requires d1 < Pow2(b) && d2 < Pow2(b)
    requires ChannelKey(k1, d1, b, typedDict, levels) == ChannelKey(k2, d2, b, typedDict, levels)
    ensures k1 == k2 && d1 == d2
  {
    if typedDict && levels > 1 {
      PackInjective(k1.second, d1, k2.second, d2, b);
    } else if !typedDict {
      PackInjective(k1.word, d1, k2.word, d2, b);
    }
  }

  lemma ChannelKeysDistinctIn(bag: Bag, dim: nat, b: nat, typedDict: bool, levels: nat)
    requires Shaped(bag, typedDict, levels) && dim < Pow2(b)
    ensures forall k1, k2 :: k1 in bag && k2 in bag && k1 != k2 ==>
      ChannelKey(k1, dim, b, typedDict, levels) != ChannelKey(k2, dim, b, typedDict, levels)
  {
    forall k1, k2 | k1 in bag && k2 in bag && k1 != k2
      ensures ChannelKey(k1, dim, b, typedDict, levels) != ChannelKey(k2, dim, b, typedDict, levels)
    {
      if ChannelKey(k1, dim, b, typedDict, levels) == ChannelKey(k2, dim, b, typedDict, levels) {
        ChannelKeyInjective(k1, dim, k2, dim, b, typedDict, levels);
      }
    }
  }

  /** The re-keying of channel `dim` as a function value; keys of another shape are kept. */
  function Tagger(dim: nat, b: nat, typedDict: bool, levels: nat): Key -> Key
  {
    k => if KeyShaped(k, typedDict, levels) then ChannelKey(k, dim, b, typedDict, levels) else k
  }

  ghost predicate InjectiveOn(f: Key -> Key, ks: set<Key>)
  {
    forall k1, k2 :: k1 in ks && k2 in ks && k1 != k2 ==> f(k1) != f(k2)
  }

  lemma InjectiveOnSubset(f: Key -> Key, ks: set<Key>, sub: set<Key>)
    requires InjectiveOn(f, ks) && sub <= ks
    ensures InjectiveOn(f, sub)
  {
  }

  /** Tagging a word of the expected shape gives its channel key. */
  lemma TaggerApplies(k: Key, dim: nat, b: nat, typedDict: bool, levels: nat)
    requires KeyShaped(k, typedDict, levels)
    ensures Tagger(dim, b, typedDict, levels)(k) == ChannelKey(k, dim, b, typedDict, levels)
  {
  }

  /** An item assignment after a union lands in the right-hand operand. */
  lemma UnionUpdate(m: Bag, r: Bag, k: Key, v: nat)
    ensures (m + r)[k := v] == m + r[k := v]
  {
  }

  /** The words `done` of `bag`, each under its new key `f(k)`. */
  function Rekey(bag: Bag, done: set<Key>, f: Key -> Key): Bag
    requires done <= bag.Keys && InjectiveOn(f, done)
  {
    map k | k in done :: f(k) := bag[k]
  }

  /** Copying one more word is one item assignment. */
  lemma RekeyInsert(bag: Bag, done: set<Key>, word: Key, f: Key -> Key)
    requires done <= bag.Keys && word in bag && word !in done
    requires InjectiveOn(f, done + {word})
    ensures Rekey(bag, done + {word}, f) == Rekey(bag, done, f)[f(word) := bag[word]]
  {
    var after, updated := Rekey(bag, done + {word}, f), Rekey(bag, done, f)[f(word) := bag[word]];
    forall x | x in after
      ensures x in updated && after[x] == updated[x]
    {
      var k :| k in done + {word} && x == f(k);
    }
    forall x | x in updated
      ensures x in after
    {
      if x != f(word) {
        var k :| k in done && x == f(k);
      }
    }
  }

  /** One round of the copy loop: the word taken from `pending` lands under its tagged key. */
  lemma RekeyStep(bag: Bag, source: Bag, pending: set<Key>, merged: Bag, word: Key,
                  dim: nat, b: nat, typedDict: bool, levels: nat)
    requires Shaped(source, typedDict, levels)
    requires InjectiveOn(Tagger(dim, b, typedDict, levels), source.Keys)
    requires pending <= source.Keys && word in pending
    requires InjectiveOn(Tagger(dim, b, typedDict, levels), source.Keys - pending)
    requires merged == bag + Rekey(source, source.Keys - pending, Tagger(dim, b, typedDict, levels))
    ensures InjectiveOn(Tagger(dim, b, typedDict, levels), source.Keys - (pending - {word}))
    ensures merged[ChannelKey(word, dim, b, typedDict, levels) := source[word]]
      == bag + Rekey(source, source.Keys - (pending - {word}), Tagger(dim, b, typedDict, levels))
  {
    var tag := Tagger(dim, b, typedDict, levels);
    var done := source.Keys - pending;
    assert done + {word} == source.Keys - (pending - {word});
    InjectiveOnSubset(tag, source.Keys, done + {word});
    RekeyInsert(source, done, word, tag);
    TaggerApplies(word, dim, b, typedDict, levels);
    UnionUpdate(bag, Rekey(source, done, tag), tag(word), source[word]);
  }

  lemma TaggerInjective(bag: Bag, dim: nat, b: nat, typedDict: bool, levels: nat)
    requires Shaped(bag, typedDict, levels) && dim < Pow2(b)
    ensures InjectiveOn(Tagger(dim, b, typedDict, levels), bag.Keys)
  {
    ChannelKeysDistinctIn(bag, dim, b, typedDict, levels);
  }

  /** One channel's bag of a case, re-keyed with the channel tag. */
  function TaggedBag(bag: Bag, dim: nat, b: nat, typedDict: bool, levels: nat): (r: Bag)
    requires Shaped(bag, typedDict, levels) && dim < Pow2(b)
    ensures forall k :: k in bag ==>
      ChannelKey(k, dim, b, typedDict, levels) in r && r[ChannelKey(k, dim, b, typedDict, levels)] == bag[k]
    ensures forall key :: key in r ==> exists k :: k in bag && key == ChannelKey(k, dim, b, typedDict, levels)
  {
    TaggerInjective(bag, dim, b, typedDict, levels);
    Rekey(bag, bag.Keys, Tagger(dim, b, typedDict, levels))
  }

  ghost predicate ChannelsFit(channelBags: seq<Bag>, dims: seq<nat>, b: nat, typedDict: bool, levels: nat)
  {
    |channelBags| == |dims|
    && (forall i :: 0 <= i < |dims| ==> dims[i] < Pow2(b))
    && (forall i :: 0 <= i < |channelBags| ==> Shaped(channelBags[i], typedDict, levels))
  }

  /**
   * The bag of one case after the channels `dims` have been merged in order;
   * `channelBags[i]` is the bag of channel `dims[i]`. A later write to a key
   * replaces an earlier one, as the item assignment in the source does.
   */
  function MergedBag(channelBags: seq<Bag>, dims: seq<nat>, b: nat, typedDict: bool, levels: nat): Bag
    requires ChannelsFit(channelBags, dims, b, typedDict, levels)
    decreases |channelBags|
  {
    if channelBags == [] then map[]
    else
      var n := |channelBags| - 1;
      MergedBag(channelBags[..n], dims[..n], b, typedDict, levels)
        + TaggedBag(channelBags[n], dims[n], b, typedDict, levels)
  }

  /** Every tagged word of the channels merged so far is in `m` with its count. */
  ghost predicate Covers(m: Bag, channelBags: seq<Bag>, dims: seq<nat>, b: nat, typedDict: bool, levels: nat)
    requires ChannelsFit(channelBags, dims, b, typedDict, levels)
  {
    forall i, k :: 0 <= i < |channelBags| && k in channelBags[i] ==>
      ChannelKey(k, dims[i], b, typedDict, levels) in m
      && m[ChannelKey(k, dims[i], b, typedDict, levels)] == channelBags[i][k]
  }

  /** Every key of `m` is a tagged word of one of the channels merged so far. */
  ghost predicate OnlyTagged(m: Bag, channelBags: seq<Bag>, dims: seq<nat>, b: nat, typedDict: bool, levels: nat)
    requires ChannelsFit(channelBags, dims, b, typedDict, levels)
  {
    forall key :: key in m ==>
      exists i, k :: (0 <= i < |channelBags| && k in channelBags[i]
        && key == ChannelKey(k, dims[i], b, typedDict, levels))
  }

  lemma Prefix<T>(s: seq<T>, n: nat, i: nat)
    requires i < n <= |s|
    ensures s[..n][i] == s[i]
  {
  }

  lemma MergeStepCovers(channelBags: seq<Bag>, dims: seq<nat>, b: nat, typedDict: bool, levels: nat, m: Bag, t: Bag)
    requires ChannelsFit(channelBags, dims, b, typedDict, levels) && Distinct(dims) && |channelBags| > 0
    requires var n := |channelBags| - 1;
      Covers(m, channelBags[..n], dims[..n], b, typedDict, levels)
    requires Covers(t, [channelBags[|channelBags| - 1]], [dims[|dims| - 1]], b, typedDict, levels)
    requires OnlyTagged(t, [channelBags[|channelBags| - 1]], [dims[|dims| - 1]], b, typedDict, levels)
    ensures Covers(m + t, channelBags, dims, b, typedDict, levels)
  {
    var n := |channelBags| - 1;
    var last: seq<Bag>, lastDim: seq<nat> := [channelBags[n]], [dims[n]];
    forall i, k | 0 <= i < |channelBags| && k in channelBags[i]
      ensures ChannelKey(k, dims[i], b, typedDict, levels) in m + t
      ensures (m + t)[ChannelKey(k, dims[i], b, typedDict, levels)] == channelBags[i][k]
    {
      var key := ChannelKey(k, dims[i], b, typedDict, levels);
      if i < n {
        Prefix(channelBags, n, i);
        Prefix(dims, n, i);
        if key in t {
          var j, k' :| 0 <= j < 1 && k' in last[j] && key == ChannelKey(k', lastDim[j], b, typedDict, levels);
          ChannelKeyInjective(k, dims[i], k', dims[n], b, typedDict, levels);
          assert false;
        }
      } else {
        assert last[0] == channelBags[i] && lastDim[0] == dims[i];
      }
    }
  }

  lemma MergeStepOnly(channelBags: seq<Bag>, dims: seq<nat>, b: nat, typedDict: bool, levels: nat, m: Bag, t: Bag)
    requires ChannelsFit(channelBags, dims, b, typedDict, levels) && |channelBags| > 0
    requires var n := |channelBags| - 1;
      OnlyTagged(m, channelBags[..n], dims[..n], b, typedDict, levels)
    requires OnlyTagged(t, [channelBags[|channelBags| - 1]], [dims[|dims| - 1]], b, typedDict, levels)
    ensures OnlyTagged(m + t, channelBags, dims, b, typedDict, levels)
  {
    var n := |channelBags| - 1;
    var front, fdims := channelBags[..n], dims[..n];
    var last: seq<Bag>, lastDim: seq<nat> := [channelBags[n]], [dims[n]];
    forall key | key in m + t
      ensures exists i, k :: (0 <= i < |channelBags| && k in channelBags[i]
        && key == ChannelKey(k, dims[i], b, typedDict, levels))
    {
      if key in t {
        var j, k :| 0 <= j < 1 && k in last[j] && key == ChannelKey(k, lastDim[j], b, typedDict, levels);
        assert k in channelBags[n] && key == ChannelKey(k, dims[n], b, typedDict, levels);
      } else {
        var i, k :| 0 <= i < |front| && k in front[i] && key == ChannelKey(k, fdims[i], b, typedDict, levels);
        Prefix(channelBags, n, i);
        Prefix(dims, n, i);
      }
    }
  }

  lemma TaggedBagExact(bag: Bag, dim: nat, b: nat, typedDict: bool, levels: nat)
    requires Shaped(bag, typedDict, levels) && dim < Pow2(b)
    ensures Covers(TaggedBag(bag, dim, b, typedDict, levels), [bag], [dim], b, typedDict, levels)
    ensures OnlyTagged(TaggedBag(bag, dim, b, typedDict, levels), [bag], [dim], b, typedDict, levels)
  {
    var t := TaggedBag(bag, dim, b, typedDict, levels);
    forall key | key in t
      ensures exists i, k :: (0 <= i < 1 && k in [bag][i] && key == ChannelKey(k, [dim][i], b, typedDict, levels))
    {
      var k :| k in bag && key == ChannelKey(k, dim, b, typedDict, levels);
      assert [bag][0] == bag && [dim][0] == dim;
    }
  }

  lemma PrefixFits(channelBags: seq<Bag>, dims: seq<nat>, b: nat, typedDict: bool, levels: nat, n: nat)
    requires ChannelsFit(channelBags, dims, b, typedDict, levels) && n <= |channelBags|
    ensures ChannelsFit(channelBags[..n], dims[..n], b, typedDict, levels)
  {
    forall i | 0 <= i < n
      ensures dims[..n][i] < Pow2(b) && Shaped(channelBags[..n][i], typedDict, levels)
    {
      Prefix(channelBags, n, i);
      Prefix(dims, n, i);
    }
  }

  lemma PrefixDistinct(dims: seq<nat>, n: nat)
    requires Distinct(dims) && n <= |dims|
    ensures Distinct(dims[..n])
  {
    forall i, j | 0 <= i < n && 0 <= j < n && i != j
      ensures dims[..n][i] != dims[..n][j]
    {
      Prefix(dims, n, i);
      Prefix(dims, n, j);
    }
  }

  /**
   * With distinct channels nothing is lost in the merge: every word of every
   * selected channel is in the merged bag with its own count.
   */
  lemma {:induction false} MergedBagCovers(channelBags: seq<Bag>, dims: seq<nat>, b: nat, typedDict: bool, levels: nat)
    requires ChannelsFit(channelBags, dims, b, typedDict, levels)
    requires Distinct(dims)
    ensures Covers(MergedBag(channelBags, dims, b, typedDict, levels), channelBags, dims, b, typedDict, levels)
    decreases |channelBags|
  {
    if channelBags != [] {
      var n := |channelBags| - 1;
      PrefixFits(channelBags, dims, b, typedDict, levels, n);
      PrefixDistinct(dims, n);
      MergedBagCovers(channelBags[..n], dims[..n], b, typedDict, levels);
      TaggedBagExact(channelBags[n], dims[n], b, typedDict, levels);
      MergeStepCovers(channelBags, dims, b, typedDict, levels,
        MergedBag(channelBags[..n], dims[..n], b, typedDict, levels), TaggedBag(channelBags[n], dims[n], b, typedDict, levels));
    }
  }

  /** Every merged key is the tagged form of a word of one selected channel. */
  lemma {:induction false} MergedBagOnlyTagged(channelBags: seq<Bag>, dims: seq<nat>, b: nat, typedDict: bool, levels: nat)
    requires ChannelsFit(channelBags, dims, b, typedDict, levels)
    ensures OnlyTagged(MergedBag(channelBags, dims, b, typedDict, levels), channelBags, dims, b, typedDict, levels)
    decreases |channelBags|
  {
    if channelBags != [] {
      var n := |channelBags| - 1;
      PrefixFits(channelBags, dims, b, typedDict, levels, n);
      MergedBagOnlyTagged(channelBags[..n], dims[..n], b, typedDict, levels);
      TaggedBagExact(channelBags[n], dims[n], b, typedDict, levels);
      MergeStepOnly(channelBags, dims, b, typedDict, levels,
        MergedBag(channelBags[..n], dims[..n], b, typedDict, levels), TaggedBag(channelBags[n], dims[n], b, typedDict, levels));
    }
  }
}
