/** The searches `addSymbol` performs on the viewport and the owned collection:
    a search BY VALUE for the first filler, a search BY IDENTITY for the
    position of one instance, and the overwrite of that position. */
module Collection {
  import opened Symbols

  /** No filler before position i. */
  predicate NoFillerBefore(s: seq<Symbol>, i: int) {
    forall j :: 0 <= j < i && j < |s| ==> !IsFiller(s[j])
  }

  /** The first instance of s that matches the filler pattern, if any. */
  function FindFiller(s: seq<Symbol>): (r: Option<Symbol>)
    ensures r.None? <==> NoFillerBefore(s, |s|)
    ensures r.Some? ==> IsFiller(r.value) && exists i :: 0 <= i < |s| && s[i] == r.value && NoFillerBefore(s, i)
  {
    if s == [] then None
    else if IsFiller(s[0]) then
      assert NoFillerBefore(s, 0);
      Some(s[0])
    else
      var r := FindFiller(s[1..]);
      assert forall i :: 0 <= i <= |s[1..]| ==> (NoFillerBefore(s[1..], i) <==> NoFillerBefore(s, i + 1));
      if r.Some? then
        var i :| 0 <= i < |s[1..]| && s[1..][i] == r.value && NoFillerBefore(s[1..], i);
        assert s[i + 1] == r.value;
        r
      else r
  }

  /** The position of the first occurrence of the instance with identity id,
      or -1 when it does not occur. */
  function IndexOf(s: seq<Symbol>, id: nat): (r: int)
    ensures -1 <= r < |s|
    ensures r == -1 <==> forall i :: 0 <= i < |s| ==> s[i].id != id
    ensures r != -1 ==> s[r].id == id && forall i :: 0 <= i < r ==> s[i].id != id
  {
    if s == [] then -1
    else if s[0].id == id then 0
    else
      var r := IndexOf(s[1..], id);
      if r == -1 then -1 else r + 1
  }

  /** Overwrites the first occurrence of `target` with `x`; nothing changes when
      `target` does not occur. (For the owned collection this is the effect of
      assigning to index -1 of a copy, which adds no element.) */
  function ReplaceInstance(s: seq<Symbol>, target: Symbol, x: Symbol): (r: seq<Symbol>)
    ensures |r| == |s|
    ensures IndexOf(s, target.id) == -1 ==> r == s
    ensures IndexOf(s, target.id) != -1 ==>
              r[IndexOf(s, target.id)] == x &&
              forall i :: 0 <= i < |s| && i != IndexOf(s, target.id) ==> r[i] == s[i]
  {
    var k := IndexOf(s, target.id);
    if k == -1 then s else s[k := x]
  }

  /** The filler `addSymbol` replaces: the first one in the viewport, or else
      the first one in the owned collection. */
  function FillerToReplace(viewport: seq<Symbol>, owned: seq<Symbol>): (r: Option<Symbol>)
    ensures r.None? <==> NoFillerBefore(viewport, |viewport|) && NoFillerBefore(owned, |owned|)
    ensures !NoFillerBefore(viewport, |viewport|) ==> r == FindFiller(viewport)
    ensures NoFillerBefore(viewport, |viewport|) ==> r == FindFiller(owned)
  {
    match FindFiller(viewport)
    case Some(f) => Some(f)
    case None => FindFiller(owned)
  }

  /** The number of fillers in s. */
  function Fillers(s: seq<Symbol>): (n: nat)
    ensures n <= |s|
  {
    if s == [] then 0 else Fillers(s[..|s| - 1]) + (if IsFiller(s[|s| - 1]) then 1 else 0)
  }

  /** The count is zero exactly when no instance is a filler (which is when
      the search for one fails). */
  lemma {:induction false} FillersZero(s: seq<Symbol>)
    ensures Fillers(s) == 0 <==> NoFillerBefore(s, |s|)
  {
    if s != [] {
      var front := s[..|s| - 1];
      FillersZero(front);
      assert forall j :: 0 <= j < |s| - 1 ==> front[j] == s[j];
    }
  }

  /** Appending one instance adds one filler exactly when that instance is one. */
  lemma FillersAppend(s: seq<Symbol>, x: Symbol)
    ensures Fillers(s + [x]) == Fillers(s) + (if IsFiller(x) then 1 else 0)
  {
    assert (s + [x])[..|s|] == s;
  }

  /** Overwriting one slot removes the filler it held, if any, and adds the new
      instance if that is a filler; all other slots keep their count. */
  lemma {:induction false} FillersUpdate(s: seq<Symbol>, i: nat, x: Symbol)
    requires i < |s|
    ensures Fillers(s[i := x]) == Fillers(s) - (if IsFiller(s[i]) then 1 else 0) + (if IsFiller(x) then 1 else 0)
    decreases |s|
  {
    var t := s[i := x];
    var last := |s| - 1;
    if i == last {
      assert t[..last] == s[..last];
    } else {
      assert t[..last] == s[..last][i := x];
      FillersUpdate(s[..last], i, x);
    }
  }

  /** An instance found by identity is the instance itself when identities are
      distinct: IndexOf locates exactly the occurrence of an element. */
  lemma IndexOfMember(s: seq<Symbol>, x: Symbol)
    requires DistinctIds(s) && x in s
    ensures IndexOf(s, x.id) != -1 && s[IndexOf(s, x.id)] == x
  {
    var j :| 0 <= j < |s| && s[j] == x;
    var k := IndexOf(s, x.id);
    assert k != -1 && k <= j;
  }

  /** Replacing an instance with one of an unused identity keeps the
      identities distinct. */
  lemma ReplaceKeepsDistinctIds(s: seq<Symbol>, target: Symbol, x: Symbol)
    requires DistinctIds(s)
    requires forall y :: y in s ==> y.id != x.id
    ensures DistinctIds(ReplaceInstance(s, target, x))
  {
    var r := ReplaceInstance(s, target, x);
    var k := IndexOf(s, target.id);
    forall i, j | 0 <= i < j < |r| ensures r[i].id != r[j].id {
      if i == k {
        assert s[j] in s;
      } else if j == k {
        assert s[i] in s;
      }
    }
  }

  /** Replacing the same owned instance in the viewport and in the owned
      collection keeps every visible instance owned. */
  lemma ReplaceKeepsVisibleOwned(viewport: seq<Symbol>, owned: seq<Symbol>, target: Symbol, x: Symbol)
    requires DistinctIds(viewport) && DistinctIds(owned)
    requires forall y :: y in viewport ==> y in owned
    requires target in owned
    ensures forall y :: y in ReplaceInstance(viewport, target, x) ==> y in ReplaceInstance(owned, target, x)
  {
    IndexOfMember(owned, target);
    var k := IndexOf(owned, target.id);
    var kv := IndexOf(viewport, target.id);
    var newOwned := ReplaceInstance(owned, target, x);
    var newViewport := ReplaceInstance(viewport, target, x);
    assert newOwned[k] == x;
    forall y | y in newViewport ensures y in newOwned {
      var p :| 0 <= p < |newViewport| && newViewport[p] == y;
      if p != kv {
        assert y == viewport[p] && y in owned;
        var j :| 0 <= j < |owned| && owned[j] == y;
        if j == k {
          assert false;
        }
        assert newOwned[j] == y;
      }
    }
  }
}
