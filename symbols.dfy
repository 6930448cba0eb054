/** The symbol catalogue of the slot machine: rarities, symbol definitions,
    the library of eight definitions, the rarity index, and symbol instances
    (copies of a definition with an identity of their own). */
module Symbols {

  datatype Option<T> = None | Some(value: T)

  /** The grid is ROWS x COLUMNS cells; a viewport always holds this many symbols. */
  const Columns: nat := 5
  const Rows: nat := 4
  const SymbolCount: nat := Columns * Rows

  datatype Rarity = Common | Uncommon | Rare | VeryRare | Special

  /** The fields of a definition that the engine reads. `hasTargets` says whether
      the optional `targets` field is set; icons and colours are presentation only. */
  datatype SymbolDef = SymbolDef(name: string, score: int, rarity: Rarity, hasTargets: bool)

  /** A partial definition: a field given as None (or `hasTargets` false) is omitted. */
  datatype SymbolProps = SymbolProps(name: Option<string>, score: Option<int>, rarity: Option<Rarity>, hasTargets: bool)

  /** A definition from partial properties: every property given wins,
      every property omitted takes its default (no name, score 0, common). */
  function DefineSymbol(props: SymbolProps): (d: SymbolDef)
    ensures props.name.Some? ==> d.name == props.name.value
    ensures props.name.None? ==> d.name == ""
    ensures props.score.Some? ==> d.score == props.score.value
    ensures props.score.None? ==> d.score == 0
    ensures props.rarity.Some? ==> d.rarity == props.rarity.value
    ensures props.rarity.None? ==> d.rarity == Common
    ensures d.hasTargets == props.hasTargets
  {
    SymbolDef(
      if props.name.Some? then props.name.value else "",
      if props.score.Some? then props.score.value else 0,
      if props.rarity.Some? then props.rarity.value else Common,
      props.hasTargets)
  }

  /** The keys of the symbol library, in declaration order. */
  datatype SymbolKey = Empty | Bee | Cat | Cherry | Coin | Flower | Milk | Spade

  const AllKeys: seq<SymbolKey> := [Empty, Bee, Cat, Cherry, Coin, Flower, Milk, Spade]

  /** The library: `Empty` is the special zero-score filler, the seven others
      are common symbols worth one point each; none of them has targets. */
  function Library(k: SymbolKey): (d: SymbolDef)
    ensures d.rarity == Special <==> k == Empty
    ensures d.rarity == Special || d.rarity == Common
    ensures d.score == if k == Empty then 0 else 1
    ensures !d.hasTargets
  {
    match k
    case Empty => DefineSymbol(SymbolProps(Some("Empty"), None, Some(Special), false))
    case Bee => DefineSymbol(SymbolProps(Some("Bee"), Some(1), None, false))
    case Cat => DefineSymbol(SymbolProps(Some("Cat"), Some(1), None, false))
    case Cherry => DefineSymbol(SymbolProps(Some("Cherry"), Some(1), None, false))
    case Coin => DefineSymbol(SymbolProps(Some("Coin"), Some(1), None, false))
    case Flower => DefineSymbol(SymbolProps(Some("Flower"), Some(1), None, false))
    case Milk => DefineSymbol(SymbolProps(Some("Milk"), Some(1), None, false))
    case Spade => DefineSymbol(SymbolProps(Some("Spade"), Some(1), None, false))
  }

  /** No two keys share a definition (their names differ). */
  lemma LibraryInjective(a: SymbolKey, b: SymbolKey)
    ensures Library(a) == Library(b) ==> a == b
  {
  }

  ghost predicate Distinct<T>(s: seq<T>) {
    forall i, j :: 0 <= i < j < |s| ==> s[i] != s[j]
  }

  /** The definitions of the given keys. */
  function DefsOf(keys: seq<SymbolKey>): set<SymbolDef> {
    set k | k in keys :: Library(k)
  }

  /** The library definitions of the given keys whose rarity is `r`, in key order. */
  function FilterByRarity(keys: seq<SymbolKey>, r: Rarity): (defs: seq<SymbolDef>)
    ensures |defs| <= |keys|
  {
    if keys == [] then []
    else if Library(keys[0]).rarity == r then [Library(keys[0])] + FilterByRarity(keys[1..], r)
    else FilterByRarity(keys[1..], r)
  }

  /** The filter keeps exactly the definitions of rarity `r` among the keys',
      and keeps them pairwise different when the keys are. */
  lemma {:induction false} FilterMembers(keys: seq<SymbolKey>, r: Rarity)
    ensures forall d :: d in FilterByRarity(keys, r) ==> d.rarity == r && d in DefsOf(keys)
    ensures forall k :: k in keys && Library(k).rarity == r ==> Library(k) in FilterByRarity(keys, r)
    ensures Distinct(keys) ==> Distinct(FilterByRarity(keys, r))
  {
    if keys != [] {
      FilterMembers(keys[1..], r);
      assert DefsOf(keys) == {Library(keys[0])} + DefsOf(keys[1..]);
      assert forall k :: k in keys ==> k == keys[0] || k in keys[1..];
      if Library(keys[0]).rarity == r {
        assert Distinct(keys) ==> keys[0] !in keys[1..];
        LibraryNotIn(keys[0], keys[1..]);
      }
    }
  }

  /** A key absent from `keys` has a definition that none of theirs equals. */
  lemma LibraryNotIn(k: SymbolKey, keys: seq<SymbolKey>)
    ensures k !in keys ==> Library(k) !in DefsOf(keys)
  {
    if k !in keys && Library(k) in DefsOf(keys) {
      var k' :| k' in keys && Library(k') == Library(k);
      LibraryInjective(k, k');
    }
  }

  /** The positions of `keys` whose definition has rarity `r`, in increasing order. */
  function KeptPositions(keys: seq<SymbolKey>, r: Rarity): (idx: seq<nat>)
    ensures forall i :: 0 <= i < |idx| ==> idx[i] < |keys|
  {
    if keys == [] then []
    else
      var rest := Shift(KeptPositions(keys[1..], r));
      if Library(keys[0]).rarity == r then [0] + rest else rest
  }

  /** Every position one further on. */
  function Shift(idx: seq<nat>): (r: seq<nat>)
    ensures |r| == |idx| && forall i :: 0 <= i < |idx| ==> r[i] == idx[i] + 1
  {
    seq(|idx|, i requires 0 <= i < |idx| => idx[i] + 1)
  }

  predicate Increasing(idx: seq<nat>) {
    forall i, j :: 0 <= i < j < |idx| ==> idx[i] < idx[j]
  }

  /** The kept positions increase strictly. */
  lemma {:induction false} KeptPositionsIncrease(keys: seq<SymbolKey>, r: Rarity)
    ensures Increasing(KeptPositions(keys, r))
  {
    if keys != [] {
      KeptPositionsIncrease(keys[1..], r);
      var rest := Shift(KeptPositions(keys[1..], r));
      assert Increasing(rest);
      if Library(keys[0]).rarity == r {
        assert KeptPositions(keys, r) == [0] + rest;
      } else {
        assert KeptPositions(keys, r) == rest;
      }
    }
  }

  /** The filter keeps as many definitions as there are kept positions. */
  lemma {:induction false} KeptPositionsCount(keys: seq<SymbolKey>, r: Rarity)
    ensures |KeptPositions(keys, r)| == |FilterByRarity(keys, r)|
  {
    if keys != [] {
      KeptPositionsCount(keys[1..], r);
    }
  }

  /** The i-th definition the filter keeps is the definition at the i-th kept
      position. */
  lemma {:induction false} FilterAt(keys: seq<SymbolKey>, r: Rarity, i: nat)
    requires i < |KeptPositions(keys, r)|
    ensures i < |FilterByRarity(keys, r)|
    ensures FilterByRarity(keys, r)[i] == Library(keys[KeptPositions(keys, r)[i]])
  {
    KeptPositionsCount(keys, r);
    var tail := keys[1..];
    var inner := KeptPositions(tail, r);
    if Library(keys[0]).rarity == r {
      if i > 0 {
        FilterAt(tail, r, i - 1);
        assert KeptPositions(keys, r)[i] == inner[i - 1] + 1;
        assert keys[inner[i - 1] + 1] == tail[inner[i - 1]];
      }
    } else {
      FilterAt(tail, r, i);
      assert KeptPositions(keys, r)[i] == inner[i] + 1;
      assert keys[inner[i] + 1] == tail[inner[i]];
    }
  }

  /** The filter keeps key order: its i-th definition is the definition at the
      i-th kept position, and those positions increase (KeptPositionsIncrease). */
  lemma FilterKeepsKeyOrder(keys: seq<SymbolKey>, r: Rarity)
    ensures |KeptPositions(keys, r)| == |FilterByRarity(keys, r)|
    ensures forall i :: 0 <= i < |KeptPositions(keys, r)| ==>
              FilterByRarity(keys, r)[i] == Library(keys[KeptPositions(keys, r)[i]])
  {
    KeptPositionsCount(keys, r);
    forall i | 0 <= i < |KeptPositions(keys, r)|
      ensures FilterByRarity(keys, r)[i] == Library(keys[KeptPositions(keys, r)[i]])
    {
      FilterAt(keys, r, i);
    }
  }

  /** The library filtered by rarity, in library order. */
  function ByRarity(r: Rarity): (defs: seq<SymbolDef>)
    ensures |defs| <= |AllKeys|
  {
    FilterByRarity(AllKeys, r)
  }

  /** A library definition is in a rarity's list exactly when it has that
      rarity; the list holds library definitions only, each once. */
  lemma ByRarityMembers(r: Rarity)
    ensures forall k :: Library(k) in ByRarity(r) <==> Library(k).rarity == r
    ensures forall d :: d in ByRarity(r) ==> d.rarity == r && d in DefsOf(AllKeys)
    ensures Distinct(ByRarity(r))
  {
    AllKeysComplete();
    FilterMembers(AllKeys, r);
  }

  /** Each rarity's list keeps library order: its i-th definition is that of
      the i-th key of that rarity, and those keys' positions increase. */
  lemma ByRarityInLibraryOrder(r: Rarity)
    ensures Increasing(KeptPositions(AllKeys, r))
    ensures |KeptPositions(AllKeys, r)| == |ByRarity(r)|
    ensures forall i :: 0 <= i < |ByRarity(r)| ==> ByRarity(r)[i] == Library(AllKeys[KeptPositions(AllKeys, r)[i]])
  {
    KeptPositionsIncrease(AllKeys, r);
    FilterKeepsKeyOrder(AllKeys, r);
  }

  /** The position of each key in AllKeys. */
  function KeyIndex(k: SymbolKey): (i: nat)
    ensures i < |AllKeys| && AllKeys[i] == k
  {
    match k
    case Empty => 0
    case Bee => 1
    case Cat => 2
    case Cherry => 3
    case Coin => 4
    case Flower => 5
    case Milk => 6
    case Spade => 7
  }

  /** AllKeys lists every key exactly once. */
  lemma AllKeysComplete()
    ensures forall k: SymbolKey :: k in AllKeys
    ensures Distinct(AllKeys)
  {
    forall k: SymbolKey ensures k in AllKeys {
      assert AllKeys[KeyIndex(k)] == k;
    }
    forall i, j | 0 <= i < j < |AllKeys| ensures AllKeys[i] != AllKeys[j] {
      assert KeyIndex(AllKeys[i]) == i;
      assert KeyIndex(AllKeys[j]) == j;
    }
  }

  /** The common pool holds seven definitions, the scoring symbols. */
  lemma CommonPoolSize()
    ensures |ByRarity(Common)| == 7
  {
    CommonPoolOrder();
  }

  /** A symbol instance: a copy of a definition with its own identity. Two
      instances are the same object exactly when their ids are equal. */
  datatype Symbol = Symbol(id: nat, def: SymbolDef)

  /** What `createSymbol` accepts: a library key or a definition to copy. */
  datatype SymbolRef = ByKey(key: SymbolKey) | Given(def: SymbolDef)

  function DefinitionOf(ref: SymbolRef): SymbolDef {
    match ref
    case ByKey(k) => Library(k)
    case Given(d) => d
  }

  /** A new instance (identity `id`, which the caller allocates fresh) carrying a
      copy of the referenced definition. */
  function CreateSymbol(ref: SymbolRef, id: nat): (s: Symbol)
    ensures s.id == id
    ensures ref.ByKey? ==> s.def == Library(ref.key)
    ensures ref.Given? ==> s.def == ref.def
  {
    Symbol(id, DefinitionOf(ref))
  }

  /** The filler pattern: a partial match against the `Empty` definition on the
      fields it has (name, score, rarity); other fields are ignored. */
  predicate IsFiller(s: Symbol) {
    var e := Library(Empty);
    s.def.name == e.name && s.def.score == e.score && s.def.rarity == e.rarity
  }

  /** Of the library definitions, exactly the empty one matches the filler pattern. */
  lemma FillerIsEmptyOnly(k: SymbolKey, id: nat)
    ensures IsFiller(CreateSymbol(ByKey(k), id)) <==> k == Empty
  {
  }

  /** Every instance in `s` is a different object. */
  ghost predicate DistinctIds(s: seq<Symbol>) {
    forall i, j :: 0 <= i < j < |s| ==> s[i].id != s[j].id
  }

  /** The library definitions of the keys, in key order. */
  function LibraryDefs(keys: seq<SymbolKey>): (defs: seq<SymbolDef>)
    ensures |defs| == |keys| && forall i :: 0 <= i < |keys| ==> defs[i] == Library(keys[i])
  {
    seq(|keys|, i requires 0 <= i < |keys| => Library(keys[i]))
  }

  /** When every key has rarity `r`, the filter keeps all of them, in order. */
  lemma {:induction false} FilterKeepsAll(keys: seq<SymbolKey>, r: Rarity)
    requires forall i :: 0 <= i < |keys| ==> Library(keys[i]).rarity == r
    ensures FilterByRarity(keys, r) == LibraryDefs(keys)
  {
    if keys != [] {
      FilterKeepsAll(keys[1..], r);
      assert LibraryDefs(keys) == [Library(keys[0])] + LibraryDefs(keys[1..]);
    }
  }

  /** Every key after the filler is common. */
  lemma ScoringKeysCommon()
    ensures forall i :: 1 <= i < |AllKeys| ==> Library(AllKeys[i]).rarity == Common
  {
    forall i | 1 <= i < |AllKeys| ensures Library(AllKeys[i]).rarity == Common {
      AllKeysComplete();
      assert AllKeys[i] != AllKeys[0] == Empty;
    }
  }

  /** When only the first key lacks rarity `r`, the filter keeps all the
      others, in order. */
  lemma FilterSkipsFirst(keys: seq<SymbolKey>, r: Rarity)
    requires keys != [] && Library(keys[0]).rarity != r
    requires forall i :: 1 <= i < |keys| ==> Library(keys[i]).rarity == r
    ensures FilterByRarity(keys, r) == LibraryDefs(keys[1..])
  {
    var tail := keys[1..];
    assert forall i :: 0 <= i < |tail| ==> tail[i] == keys[i + 1];
    FilterKeepsAll(tail, r);
  }

  /** The common pool is the seven scoring symbols, in library order: every
      key after the filler. */
  lemma CommonPoolOrder()
    ensures ByRarity(Common) == LibraryDefs(AllKeys[1..])
  {
    ScoringKeysCommon();
    FilterSkipsFirst(AllKeys, Common);
  }
}
