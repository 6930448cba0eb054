/** The slot machine's state and its transitions: spinning, completing a
    spin (tabulation and the prize offer), and taking or skipping a prize. */
module SlotMachine {
  import opened Symbols
  import opened Sampling
  import opened Tabulation
  import opened Collection

  /** The prize window offers this many symbols. */
  const PrizeOptionCount: nat := 3

  /** The prize offer: three different common definitions, sampled from the
      common pool with the random numbers `draws`. */
  method DrawPrizeOptions(draws: seq<nat>) returns (options: seq<SymbolDef>)
    requires PrizeOptionCount <= |draws|
    ensures options == SampleSize(ByRarity(Common), PrizeOptionCount, draws)
    ensures |options| == PrizeOptionCount
    ensures Distinct(options)
    ensures forall d :: d in options ==> d.rarity == Common && d in DefsOf(AllKeys)
  {
    CommonPoolSize();
    ByRarityMembers(Common);
    SampleOfDistinct(ByRarity(Common), PrizeOptionCount, draws);
    options := SampleSize(ByRarity(Common), PrizeOptionCount, draws);
  }

  /** The collections' invariant: the viewport fills the grid with owned
      instances, the owned collection never drops below a grid's worth, and
      instances are pairwise different objects with identities below `nextId`. */
  ghost predicate CollectionsValid(owned: seq<Symbol>, viewport: seq<Symbol>, nextId: nat) {
    |viewport| == SymbolCount &&
    SymbolCount <= |owned| &&
    DistinctIds(owned) && DistinctIds(viewport) &&
    (forall x :: x in viewport ==> x in owned) &&
    (forall x :: x in owned ==> x.id < nextId)
  }

  /** The offer's invariant: common symbols, three different ones while the
      prize window is open. */
  ghost predicate OfferValid(options: seq<SymbolDef>, windowOpen: bool) {
    (forall d :: d in options ==> d.rarity == Common) &&
    (windowOpen ==> |options| == PrizeOptionCount && Distinct(options))
  }

  /** The owned collection and the viewport, together. */
  datatype Collections = Collections(owned: seq<Symbol>, viewport: seq<Symbol>)

  /** Both collections after `added` joins them: it takes the place of the
      filler chosen for replacement, or is appended to the owned collection
      when there is none. */
  function AddInstance(c: Collections, added: Symbol): Collections {
    match FillerToReplace(c.viewport, c.owned)
    case None => Collections(c.owned + [added], c.viewport)
    case Some(f) => Collections(ReplaceInstance(c.owned, f, added), ReplaceInstance(c.viewport, f, added))
  }

  class Machine {
    /** The owned collection. */
    var ownedSymbols: seq<Symbol>
    /** The symbols on display, one per grid cell. */
    var viewportSymbols: seq<Symbol>
    var spinning: bool
    var score: int
    var spinCount: nat
    var prizeOptions: seq<SymbolDef>
    var prizeWindowOpen: bool
    var paymentWindowOpen: bool
    /** The identity the next created instance receives. */
    var nextId: nat

    ghost predicate Valid()
      reads this
    {
      CollectionsValid(ownedSymbols, viewportSymbols, nextId) &&
      OfferValid(prizeOptions, prizeWindowOpen)
    }

    /** A spin may start only when no spin is running and neither window is open. */
    predicate CanSpin()
      reads this
    {
      !spinning && !prizeWindowOpen && !paymentWindowOpen
    }

    /** The initial state: the seed collection, shown as it is (the viewport
        holds the same instances in the same order), no score, no spins, both
        windows closed. */
    constructor ()
      ensures Valid()
      ensures |ownedSymbols| == SymbolCount
      ensures forall i :: 0 <= i < SymbolCount ==> ownedSymbols[i].def == Library(SeedKey(i))
      ensures viewportSymbols == ownedSymbols
      ensures !spinning && score == 0 && spinCount == 0 && prizeOptions == []
      ensures !prizeWindowOpen && !paymentWindowOpen && CanSpin()
      ensures nextId == SeedInstanceCount
    {
      var owned := CreateInitialOwnedSymbols(0);
      ownedSymbols := owned;
      viewportSymbols := owned;
      spinning := false;
      score := 0;
      spinCount := 0;
      prizeOptions := [];
      prizeWindowOpen := false;
      paymentWindowOpen := false;
      nextId := SeedInstanceCount;
    }

    /** Starts a spin: refused (nothing changes) unless CanSpin(); otherwise
        marks the machine spinning, counts the spin and shows a fresh sample
        of the owned collection (the padding filler takes identity `nextId`). */
    method Spin(draws: seq<nat>)
      requires Valid()
      requires SymbolCount <= |draws|
      modifies this
      ensures Valid()
      ensures !old(CanSpin()) ==> unchanged(this)
      ensures old(CanSpin()) ==>
        spinning && spinCount == old(spinCount) + 1 &&
        viewportSymbols == PickSymbols(old(ownedSymbols), old(nextId), draws) &&
        nextId == old(nextId) + 1 &&
        ownedSymbols == old(ownedSymbols) && score == old(score) &&
        prizeOptions == old(prizeOptions) && prizeWindowOpen == old(prizeWindowOpen) &&
        paymentWindowOpen == old(paymentWindowOpen)
      ensures !CanSpin()
    {
      if !CanSpin() {
        return;
      }
      spinning := true;
      spinCount := spinCount + 1;
      PickKeepsValid(ownedSymbols, viewportSymbols, nextId, draws);
      viewportSymbols := PickSymbols(ownedSymbols, nextId, draws);
      nextId := nextId + 1;
    }

    /** Opens the prize window with a fresh offer. */
    method OpenPrizeWindow(draws: seq<nat>)
      requires Valid()
      requires PrizeOptionCount <= |draws|
      modifies this
      ensures Valid()
      ensures prizeWindowOpen && prizeOptions == SampleSize(ByRarity(Common), PrizeOptionCount, draws)
      ensures |prizeOptions| == PrizeOptionCount && Distinct(prizeOptions)
      ensures forall d :: d in prizeOptions ==> d.rarity == Common && d in DefsOf(AllKeys)
      ensures ownedSymbols == old(ownedSymbols) && viewportSymbols == old(viewportSymbols)
      ensures spinning == old(spinning) && score == old(score) && spinCount == old(spinCount)
      ensures paymentWindowOpen == old(paymentWindowOpen) && nextId == old(nextId)
    {
      var options := DrawPrizeOptions(draws);
      assert OfferValid(options, true);
      prizeOptions, prizeWindowOpen := options, true;
    }

    /** Completes a spin: tabulates the viewport into the score, stops
        spinning and opens the prize window, so no spin can start until the
        window is closed. */
    method HandleSpinComplete(prizeDraws: seq<nat>)
      requires Valid()
      requires PrizeOptionCount <= |prizeDraws|
      modifies this
      ensures Valid()
      ensures score == old(score) + ScoreSum(old(viewportSymbols))
      ensures !spinning && prizeWindowOpen && !CanSpin()
      ensures prizeOptions == SampleSize(ByRarity(Common), PrizeOptionCount, prizeDraws)
      ensures |prizeOptions| == PrizeOptionCount && Distinct(prizeOptions)
      ensures forall d :: d in prizeOptions ==> d.rarity == Common && d in DefsOf(AllKeys)
      ensures ownedSymbols == old(ownedSymbols) && viewportSymbols == old(viewportSymbols)
      ensures spinCount == old(spinCount) && paymentWindowOpen == old(paymentWindowOpen)
      ensures nextId == old(nextId)
    {
      var activated, added := ProcessSpin(viewportSymbols);
      score := score + added;
      spinning := false;
      OpenPrizeWindow(prizeDraws);
    }

    /** Adds a new instance of `choice` (identity `nextId`) to the collections
        as AddInstance describes; it ends up owned. AddSymbolEffect says which
        slots change and AddCountsOneInstance how the lengths and fillers do. */
    method AddSymbol(choice: SymbolRef)
      requires Valid()
      modifies this
      ensures Valid()
      ensures Collections(ownedSymbols, viewportSymbols)
           == AddInstance(Collections(old(ownedSymbols), old(viewportSymbols)), CreateSymbol(choice, old(nextId)))
      ensures CreateSymbol(choice, old(nextId)) in ownedSymbols
      ensures nextId == old(nextId) + 1
      ensures spinning == old(spinning) && score == old(score) && spinCount == old(spinCount)
      ensures prizeOptions == old(prizeOptions) && prizeWindowOpen == old(prizeWindowOpen)
      ensures paymentWindowOpen == old(paymentWindowOpen)
    {
      var added := CreateSymbol(choice, nextId);
      var before := Collections(ownedSymbols, viewportSymbols);
      AddKeepsValid(before, nextId, added);
      ownedSymbols, viewportSymbols := PlaceInstance(ownedSymbols, viewportSymbols, added);
      nextId := nextId + 1;
    }

    /** Takes a prize: adds it and closes the prize window. */
    method SelectPrize(choice: SymbolRef)
      requires Valid()
      modifies this
      ensures Valid()
      ensures Collections(ownedSymbols, viewportSymbols)
           == AddInstance(Collections(old(ownedSymbols), old(viewportSymbols)), CreateSymbol(choice, old(nextId)))
      ensures CreateSymbol(choice, old(nextId)) in ownedSymbols
      ensures !prizeWindowOpen && nextId == old(nextId) + 1
      ensures spinning == old(spinning) && score == old(score) && spinCount == old(spinCount)
      ensures prizeOptions == old(prizeOptions) && paymentWindowOpen == old(paymentWindowOpen)
      ensures CanSpin() <==> !spinning && !paymentWindowOpen
    {
      AddSymbol(choice);
      prizeWindowOpen := false;
    }

    /** Skips the prize: closes the prize window and changes nothing else. */
    method ClosePrizeWindow()
      requires Valid()
      modifies this
      ensures Valid()
      ensures !prizeWindowOpen
      ensures ownedSymbols == old(ownedSymbols) && viewportSymbols == old(viewportSymbols)
      ensures spinning == old(spinning) && score == old(score) && spinCount == old(spinCount)
      ensures prizeOptions == old(prizeOptions) && paymentWindowOpen == old(paymentWindowOpen)
      ensures nextId == old(nextId)
      ensures CanSpin() <==> !spinning && !paymentWindowOpen
    {
      prizeWindowOpen := false;
    }
  }

  /** The filler chosen for replacement is owned whenever every visible
      instance is owned. */
  lemma FoundFillerIsOwned(viewport: seq<Symbol>, owned: seq<Symbol>)
    requires forall y :: y in viewport ==> y in owned
    ensures FillerToReplace(viewport, owned).Some? ==>
              IsFiller(FillerToReplace(viewport, owned).value) &&
              FillerToReplace(viewport, owned).value in owned
  {
    var r := FillerToReplace(viewport, owned);
    if r.Some? {
      var v := FindFiller(viewport);
      if v.Some? {
        var i :| 0 <= i < |viewport| && viewport[i] == v.value && NoFillerBefore(viewport, i);
        assert viewport[i] in viewport;
      } else {
        var o := FindFiller(owned);
        var i :| 0 <= i < |owned| && owned[i] == o.value && NoFillerBefore(owned, i);
      }
    }
  }

  /** The imperative rendering of AddInstance, slot write by slot write, as
      addSymbol performs them: the filler chosen for replacement is
      overwritten at its first position in each collection, where it occurs;
      with no filler, `added` is appended to the owned collection. Its
      postcondition ties the result to AddInstance, which the lemmas use. */
  method PlaceInstance(owned: seq<Symbol>, viewport: seq<Symbol>, added: Symbol)
    returns (newOwned: seq<Symbol>, newViewport: seq<Symbol>)
    ensures Collections(newOwned, newViewport) == AddInstance(Collections(owned, viewport), added)
  {
    newOwned, newViewport := owned, viewport;
    match FillerToReplace(viewport, owned) {
      case None =>
        newOwned := owned + [added];
      case Some(f) =>
        var k := IndexOf(owned, f.id);
        if k != -1 {
          newOwned := owned[k := added];
        }
        var visible := IndexOf(viewport, f.id);
        if visible != -1 {
          newViewport := viewport[visible := added];
        }
    }
  }

  /** A spin keeps the collections' invariant: the owned collection is at
      least a grid's worth, so the sample is made of distinct owned instances. */
  lemma PickKeepsValid(owned: seq<Symbol>, viewport: seq<Symbol>, nextId: nat, draws: seq<nat>)
    requires CollectionsValid(owned, viewport, nextId)
    requires SymbolCount <= |draws|
    ensures CollectionsValid(owned, PickSymbols(owned, nextId, draws), nextId + 1)
  {
    PickFromLargeCollection(owned, nextId, draws);
  }

  /** Adding an instance with a fresh identity keeps the collections'
      invariant, and the added instance is owned afterwards: the filler it
      replaces is always owned, so the prize is never lost. */
  lemma AddKeepsValid(c: Collections, nextId: nat, added: Symbol)
    requires CollectionsValid(c.owned, c.viewport, nextId)
    requires added.id == nextId
    ensures CollectionsValid(AddInstance(c, added).owned, AddInstance(c, added).viewport, nextId + 1)
    ensures added in AddInstance(c, added).owned
  {
    var r := AddInstance(c, added);
    match FillerToReplace(c.viewport, c.owned) {
      case None =>
        assert r.owned == c.owned + [added];
      case Some(f) =>
        FoundFillerIsOwned(c.viewport, c.owned);
        IndexOfMember(c.owned, f);
        ReplaceKeepsDistinctIds(c.owned, f, added);
        ReplaceKeepsDistinctIds(c.viewport, f, added);
        ReplaceKeepsVisibleOwned(c.viewport, c.owned, f, added);
        assert r.owned[IndexOf(c.owned, f.id)] == added;
    }
  }

  /** Adding an instance adds one owned non-filler, unless the instance is a
      filler itself: with a filler to replace, the owned length is unchanged
      and one filler is gone; without one, the owned collection grows by one. */
  lemma AddCountsOneInstance(c: Collections, nextId: nat, added: Symbol)
    requires CollectionsValid(c.owned, c.viewport, nextId)
    ensures var r := AddInstance(c, added);
      |r.owned| - Fillers(r.owned) == |c.owned| - Fillers(c.owned) + (if IsFiller(added) then 0 else 1)
    ensures |AddInstance(c, added).owned| == |c.owned| + (if FillerToReplace(c.viewport, c.owned).None? then 1 else 0)
    ensures |AddInstance(c, added).viewport| == |c.viewport|
  {
    match FillerToReplace(c.viewport, c.owned) {
      case None =>
        FillersAppend(c.owned, added);
      case Some(f) =>
        FoundFillerIsOwned(c.viewport, c.owned);
        IndexOfMember(c.owned, f);
        FillersUpdate(c.owned, IndexOf(c.owned, f.id), added);
    }
  }

  /** What adding an instance does to each slot. Without a filler, the owned
      collection grows by the new instance at its end and the viewport stays
      as it is. With one, the replaced instance is an owned filler; in the
      owned collection and in the viewport the slot holding it (there is at
      most one, as identities are distinct) now holds the new instance, and
      every other slot is unchanged. */
  lemma AddSymbolEffect(c: Collections, nextId: nat, added: Symbol)
    requires CollectionsValid(c.owned, c.viewport, nextId)
    ensures FillerToReplace(c.viewport, c.owned).None? ==>
      var r := AddInstance(c, added);
      |r.owned| == |c.owned| + 1 && r.owned[..|c.owned|] == c.owned &&
      r.owned[|c.owned|] == added && r.viewport == c.viewport
    ensures FillerToReplace(c.viewport, c.owned).Some? ==>
      var r := AddInstance(c, added);
      var f := FillerToReplace(c.viewport, c.owned).value;
      IsFiller(f) && f in c.owned &&
      |r.owned| == |c.owned| && |r.viewport| == |c.viewport| &&
      (forall i :: 0 <= i < |c.owned| ==> r.owned[i] == if c.owned[i] == f then added else c.owned[i]) &&
      (forall i :: 0 <= i < |c.viewport| ==> r.viewport[i] == if c.viewport[i] == f then added else c.viewport[i])
  {
    match FillerToReplace(c.viewport, c.owned) {
      case None =>
        assert (c.owned + [added])[..|c.owned|] == c.owned;
      case Some(f) =>
        FoundFillerIsOwned(c.viewport, c.owned);
        IndexOfMember(c.owned, f);
        ReplaceAtIdentity(c.viewport, c.owned, f, added);
    }
  }

  /** In a viewport of owned instances with distinct identities, replacing an
      owned instance by identity touches exactly the slot holding it. */
  lemma ReplaceAtIdentity(viewport: seq<Symbol>, owned: seq<Symbol>, f: Symbol, added: Symbol)
    requires DistinctIds(owned) && DistinctIds(viewport)
    requires forall y :: y in viewport ==> y in owned
    requires f in owned
    ensures forall i :: 0 <= i < |owned| ==>
      ReplaceInstance(owned, f, added)[i] == if owned[i] == f then added else owned[i]
    ensures forall i :: 0 <= i < |viewport| ==>
      ReplaceInstance(viewport, f, added)[i] == if viewport[i] == f then added else viewport[i]
  {
    IndexOfMember(owned, f);
    var k := IndexOf(owned, f.id);
    forall i | 0 <= i < |owned| && owned[i] == f ensures i == k {
    }
    var kv := IndexOf(viewport, f.id);
    if kv != -1 {
      var y := viewport[kv];
      assert y in viewport;
      var j :| 0 <= j < |owned| && owned[j] == y;
      assert j == k;
    }
  }
}
