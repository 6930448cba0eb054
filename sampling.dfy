/** Sampling without replacement, the viewport sampler and the seed collection.
    Randomness is an input: `draws[i]` is the i-th random number, and step i of
    the shuffle uses it to pick a position among those not yet fixed. */
module Sampling {
  import opened Symbols

  function Min(a: nat, b: nat): nat {
    if a <= b then a else b
  }

  /** Exchanges the elements at positions i and j. */
  function Swap<T>(s: seq<T>, i: nat, j: nat): (r: seq<T>)
    requires i < |s| && j < |s|
    ensures |r| == |s| && r[i] == s[j] && r[j] == s[i]
    ensures forall k :: 0 <= k < |s| && k != i && k != j ==> r[k] == s[k]
  {
    s[i := s[j]][j := s[i]]
  }

  /** Steps index..size-1 of a partial Fisher-Yates shuffle: step i exchanges
      position i with a position drawn from i..|s|-1. */
  function ShuffleFrom<T>(s: seq<T>, index: nat, size: nat, draws: seq<nat>): (r: seq<T>)
    requires index <= size <= |s| && size <= |draws|
    ensures |r| == |s|
    decreases size - index
  {
    if index == size then s
    else ShuffleFrom(Swap(s, index, index + draws[index] % (|s| - index)), index + 1, size, draws)
  }

  /** A sample of min(n, |s|) elements drawn without replacement, in drawn order. */
  function SampleSize<T>(s: seq<T>, n: nat, draws: seq<nat>): (r: seq<T>)
    requires Min(n, |s|) <= |draws|
    ensures |r| == Min(n, |s|)
  {
    ShuffleFrom(s, 0, Min(n, |s|), draws)[..Min(n, |s|)]
  }

  /** Exchanging two elements rearranges the sequence. */
  lemma SwapPermutes<T>(s: seq<T>, i: nat, j: nat)
    requires i < |s| && j < |s|
    ensures multiset(Swap(s, i, j)) == multiset(s)
  {
    var t := s[i := s[j]];
    assert multiset(t) == multiset(s) - multiset{s[i]} + multiset{s[j]};
  }

  /** The shuffle rearranges the sequence: nothing is lost or duplicated. */
  lemma {:induction false} ShufflePermutes<T>(s: seq<T>, index: nat, size: nat, draws: seq<nat>)
    requires index <= size <= |s| && size <= |draws|
    ensures multiset(ShuffleFrom(s, index, size, draws)) == multiset(s)
    decreases size - index
  {
    if index < size {
      var t := Swap(s, index, index + draws[index] % (|s| - index));
      SwapPermutes(s, index, index + draws[index] % (|s| - index));
      ShufflePermutes(t, index + 1, size, draws);
    }
  }

  /** A sample takes each element at most as often as it occurs, and a sample
      of at least the whole length is a rearrangement of the whole. */
  lemma SampleDrawsFrom<T>(s: seq<T>, n: nat, draws: seq<nat>)
    requires Min(n, |s|) <= |draws|
    ensures multiset(SampleSize(s, n, draws)) <= multiset(s)
    ensures n >= |s| ==> multiset(SampleSize(s, n, draws)) == multiset(s)
  {
    var size := Min(n, |s|);
    var shuffled := ShuffleFrom(s, 0, size, draws);
    ShufflePermutes(s, 0, size, draws);
    assert shuffled == shuffled[..size] + shuffled[size..];
  }

  /** A shuffle of pairwise different elements keeps them pairwise different. */
  lemma {:induction false} ShuffleKeepsDistinct<T>(s: seq<T>, index: nat, size: nat, draws: seq<nat>)
    requires index <= size <= |s| && size <= |draws|
    requires Distinct(s)
    ensures Distinct(ShuffleFrom(s, index, size, draws))
    decreases size - index
  {
    if index < size {
      var t := Swap(s, index, index + draws[index] % (|s| - index));
      assert Distinct(t);
      ShuffleKeepsDistinct(t, index + 1, size, draws);
    }
  }

  /** A shuffle of pairwise different instances keeps them pairwise different. */
  lemma {:induction false} ShuffleKeepsDistinctIds(s: seq<Symbol>, index: nat, size: nat, draws: seq<nat>)
    requires index <= size <= |s| && size <= |draws|
    requires DistinctIds(s)
    ensures DistinctIds(ShuffleFrom(s, index, size, draws))
    decreases size - index
  {
    if index < size {
      var t := Swap(s, index, index + draws[index] % (|s| - index));
      assert DistinctIds(t);
      ShuffleKeepsDistinctIds(t, index + 1, size, draws);
    }
  }

  /** A sample of pairwise different elements consists of elements of `s`,
      pairwise different. */
  lemma SampleOfDistinct<T>(s: seq<T>, n: nat, draws: seq<nat>)
    requires Min(n, |s|) <= |draws|
    requires Distinct(s)
    ensures Distinct(SampleSize(s, n, draws))
    ensures forall x :: x in SampleSize(s, n, draws) ==> x in s
  {
    var size := Min(n, |s|);
    ShuffleKeepsDistinct(s, 0, size, draws);
    SampleDrawsFrom(s, n, draws);
    var r := SampleSize(s, n, draws);
    forall x | x in r ensures x in s {
      assert x in multiset(r);
    }
  }

  /** n copies of x. */
  function Repeat<T>(x: T, n: nat): (r: seq<T>)
    ensures |r| == n
    ensures forall y :: y in r ==> y == x
    ensures multiset(r)[x] == n
  {
    if n == 0 then [] else Repeat(x, n - 1) + [x]
  }

  /** The padding: one filler instance repeated up to the grid size. */
  function Padding(owned: seq<Symbol>, filler: Symbol): (p: seq<Symbol>)
    ensures |owned + p| == if |owned| < SymbolCount then SymbolCount else |owned|
    ensures forall x :: x in p ==> x == filler
  {
    Repeat(filler, if |owned| < SymbolCount then SymbolCount - |owned| else 0)
  }

  /** The viewport for one spin: the owned collection padded with a single new
      empty instance (identity `fillerId`) up to the grid size, sampled down to
      exactly the grid size. */
  function PickSymbols(owned: seq<Symbol>, fillerId: nat, draws: seq<nat>): (viewport: seq<Symbol>)
    requires SymbolCount <= |draws|
    ensures |viewport| == SymbolCount
  {
    SampleSize(owned + Padding(owned, CreateSymbol(ByKey(Empty), fillerId)), SymbolCount, draws)
  }

  /** From a collection of at most grid size, the viewport is a rearrangement of
      the collection plus (grid size - length) copies of the one padding filler. */
  lemma PickFromShortCollection(owned: seq<Symbol>, fillerId: nat, draws: seq<nat>)
    requires SymbolCount <= |draws|
    requires |owned| <= SymbolCount
    ensures var filler := Symbol(fillerId, Library(Empty));
      multiset(PickSymbols(owned, fillerId, draws))
        == multiset(owned) + multiset(Repeat(filler, SymbolCount - |owned|))
  {
    SampleDrawsFrom(owned + Padding(owned, CreateSymbol(ByKey(Empty), fillerId)), SymbolCount, draws);
  }

  /** From a collection of at least grid size, no filler is added: the viewport
      consists of owned instances, and distinct owned instances stay distinct. */
  lemma PickFromLargeCollection(owned: seq<Symbol>, fillerId: nat, draws: seq<nat>)
    requires SymbolCount <= |draws|
    requires SymbolCount <= |owned|
    ensures multiset(PickSymbols(owned, fillerId, draws)) <= multiset(owned)
    ensures forall x :: x in PickSymbols(owned, fillerId, draws) ==> x in owned
    ensures DistinctIds(owned) ==> DistinctIds(PickSymbols(owned, fillerId, draws))
  {
    var filler := CreateSymbol(ByKey(Empty), fillerId);
    assert owned + Padding(owned, filler) == owned;
    SampleDrawsFrom(owned, SymbolCount, draws);
    var r := PickSymbols(owned, fillerId, draws);
    forall x | x in r ensures x in owned {
      assert x in multiset(r);
    }
    if DistinctIds(owned) {
      ShuffleKeepsDistinctIds(owned, 0, SymbolCount, draws);
    }
  }

  /** The key placed at each position of the seed collection. */
  function SeedKey(i: nat): SymbolKey {
    if i == 5 then Cat
    else if i == 7 then Cherry
    else if i == 9 then Coin
    else if i == 11 then Flower
    else if i == 13 then Spade
    else Empty
  }

  /** The identity of the seed instance at position i: the empties take the
      first twenty identities in creation order, the five named symbols the
      next five, in the order they are written. */
  function SeedId(firstId: nat, i: nat): nat {
    if i == 5 then firstId + SymbolCount
    else if i == 7 then firstId + SymbolCount + 1
    else if i == 9 then firstId + SymbolCount + 2
    else if i == 11 then firstId + SymbolCount + 3
    else if i == 13 then firstId + SymbolCount + 4
    else firstId + i
  }

  /** Different seed positions hold different identities, all among the
      first SeedInstanceCount after firstId. */
  lemma SeedIdsDistinct(firstId: nat)
    ensures forall i :: 0 <= i < SymbolCount ==> firstId <= SeedId(firstId, i) < firstId + SeedInstanceCount
    ensures forall i, j :: 0 <= i < j < SymbolCount ==> SeedId(firstId, i) != SeedId(firstId, j)
  {
  }

  /** Instances created by the seed: twenty empties, then five named symbols. */
  const SeedInstanceCount: nat := SymbolCount + 5

  /** The seed collection: a grid's worth of empties with cat, cherry, coin,
      flower and spade at positions 5, 7, 9, 11 and 13. The instances get the
      identities firstId, firstId+1, ... in creation order. */
  method CreateInitialOwnedSymbols(firstId: nat) returns (owned: seq<Symbol>)
    ensures |owned| == SymbolCount
    ensures forall i :: 0 <= i < SymbolCount ==> owned[i].def == Library(SeedKey(i))
    ensures forall i :: 0 <= i < SymbolCount ==> firstId <= owned[i].id < firstId + SeedInstanceCount
    ensures DistinctIds(owned)
  {
    var result := new Symbol[SymbolCount](i => CreateSymbol(ByKey(Empty), firstId + i));
    assert forall i :: 0 <= i < SymbolCount ==> result[i] == CreateSymbol(ByKey(Empty), firstId + i);
    result[5] := CreateSymbol(ByKey(Cat), firstId + SymbolCount);
    result[7] := CreateSymbol(ByKey(Cherry), firstId + SymbolCount + 1);
    result[9] := CreateSymbol(ByKey(Coin), firstId + SymbolCount + 2);
    result[11] := CreateSymbol(ByKey(Flower), firstId + SymbolCount + 3);
    result[13] := CreateSymbol(ByKey(Spade), firstId + SymbolCount + 4);
    owned := result[..];
    assert forall i :: 0 <= i < SymbolCount ==> owned[i] == CreateSymbol(ByKey(SeedKey(i)), SeedId(firstId, i));
    SeedIdsDistinct(firstId);
  }
}
