/** Score tabulation of one spin: the viewport's symbols are grouped by score,
    the non-zero scores are visited in ascending order, and every member of a
    group adds its score to the running total. */
module Tabulation {
  import opened Symbols

  /** The score of each viewport position. */
  function Scores(v: seq<Symbol>): seq<int> {
    seq(|v|, i requires 0 <= i < |v| => v[i].def.score)
  }

  function Sum(xs: seq<int>): int {
    if xs == [] then 0 else Sum(xs[..|xs| - 1]) + xs[|xs| - 1]
  }

  /** The sum of all viewport scores, each symbol counted once. */
  function ScoreSum(v: seq<Symbol>): int {
    Sum(Scores(v))
  }

  predicate StrictlyAscending(ks: seq<int>) {
    forall i, j :: 0 <= i < j < |ks| ==> ks[i] < ks[j]
  }

  /** Adds x to a strictly ascending sequence of keys (no change if present). */
  function InsertKey(ks: seq<int>, x: int): (r: seq<int>)
    requires StrictlyAscending(ks)
    ensures StrictlyAscending(r)
    ensures forall y :: y in r <==> y in ks || y == x
  {
    if ks == [] then [x]
    else if x < ks[0] then [x] + ks
    else if x == ks[0] then ks
    else
      var rest := InsertKey(ks[1..], x);
      assert forall j :: 0 <= j < |rest| ==> rest[j] in ks[1..] || rest[j] == x;
      [ks[0]] + rest
  }

  /** The keys of the grouping by score, with the key 0 dropped, sorted ascending:
      every non-zero score that occurs, once, in strictly ascending order. */
  function ScoreKeys(xs: seq<int>): (ks: seq<int>)
    ensures StrictlyAscending(ks)
    ensures forall s :: s in ks <==> s != 0 && s in xs
  {
    if xs == [] then []
    else
      var ks := ScoreKeys(xs[..|xs| - 1]);
      var x := xs[|xs| - 1];
      assert forall s :: s in xs <==> s in xs[..|xs| - 1] || s == x;
      if x == 0 then ks else InsertKey(ks, x)
  }

  /** The positions whose score is s, in viewport order. */
  function MembersWithScore(xs: seq<int>, s: int): (ms: seq<nat>)
    ensures forall k :: 0 <= k < |ms| ==> ms[k] < |xs| && xs[ms[k]] == s
    ensures forall i :: 0 <= i < |xs| && xs[i] == s ==> i in ms
    ensures StrictlyAscending(ms)
  {
    if xs == [] then []
    else
      var ms := MembersWithScore(xs[..|xs| - 1], s);
      if xs[|xs| - 1] == s then ms + [|xs| - 1] else ms
  }

  /** One batch of the tabulation: a score and the positions holding it. */
  datatype Batch = Batch(score: int, members: seq<nat>)

  /** One batch per key, in key order. */
  function BatchesFor(xs: seq<int>, ks: seq<int>): (bs: seq<Batch>)
    ensures |bs| == |ks|
  {
    seq(|ks|, j requires 0 <= j < |ks| => Batch(ks[j], MembersWithScore(xs, ks[j])))
  }

  /** The scores of the batches, in order. */
  function BatchScores(bs: seq<Batch>): seq<int> {
    seq(|bs|, j requires 0 <= j < |bs| => bs[j].score)
  }

  /** b holds, in viewport order, exactly the positions of v whose score is b's. */
  ghost predicate IsBatchOf(v: seq<Symbol>, b: Batch) {
    && StrictlyAscending(b.members)
    && (forall k :: 0 <= k < |b.members| ==> b.members[k] < |v| && v[b.members[k]].def.score == b.score)
    && (forall i :: 0 <= i < |v| && v[i].def.score == b.score ==> i in b.members)
  }

  /** The batches of a spin in the order they are applied: one per distinct
      non-zero score, scores strictly ascending, each holding exactly the
      positions with that score; zero-score symbols form no batch. */
  function Batches(v: seq<Symbol>): (bs: seq<Batch>)
    ensures StrictlyAscending(BatchScores(bs))
    ensures forall s :: s in BatchScores(bs) <==> s != 0 && s in Scores(v)
    ensures forall j :: 0 <= j < |bs| ==> IsBatchOf(v, bs[j])
  {
    var xs := Scores(v);
    var ks := ScoreKeys(xs);
    var bs := BatchesFor(xs, ks);
    assert BatchScores(bs) == ks;
    bs
  }

  /** Every position in ms is a position of xs. */
  predicate Within(xs: seq<int>, ms: seq<nat>) {
    forall k :: 0 <= k < |ms| ==> ms[k] < |xs|
  }

  function SumAt(xs: seq<int>, ms: seq<nat>): int
    requires Within(xs, ms)
  {
    if ms == [] then 0 else SumAt(xs, ms[..|ms| - 1]) + xs[ms[|ms| - 1]]
  }

  ghost predicate MembersIn(xs: seq<int>, bs: seq<Batch>) {
    forall j :: 0 <= j < |bs| ==> Within(xs, bs[j].members)
  }

  /** What the batches add to the score: every member's score, batch after batch. */
  function BatchesTotal(xs: seq<int>, bs: seq<Batch>): int
    requires MembersIn(xs, bs)
  {
    if bs == [] then 0
    else BatchesTotal(xs, bs[..|bs| - 1]) + SumAt(xs, bs[|bs| - 1].members)
  }

  /** The sum of the scores that lie in `keys`. */
  function SumWhere(xs: seq<int>, keys: set<int>): int {
    if xs == [] then 0
    else SumWhere(xs[..|xs| - 1], keys) + (if xs[|xs| - 1] in keys then xs[|xs| - 1] else 0)
  }

  lemma {:induction false} SumAtConcat(xs: seq<int>, a: seq<nat>, b: seq<nat>)
    requires Within(xs, a) && Within(xs, b)
    ensures Within(xs, a + b)
    ensures SumAt(xs, a + b) == SumAt(xs, a) + SumAt(xs, b)
    decreases |b|
  {
    if b != [] {
      assert (a + b)[..|a + b| - 1] == a + b[..|b| - 1];
      SumAtConcat(xs, a, b[..|b| - 1]);
    } else {
      assert a + b == a;
    }
  }

  /** Positions before the end are unaffected by one more score. */
  lemma {:induction false} SumAtExtend(xs: seq<int>, x: int, ms: seq<nat>)
    requires Within(xs, ms)
    ensures SumAt(xs + [x], ms) == SumAt(xs, ms)
    decreases |ms|
  {
    if ms != [] {
      SumAtExtend(xs, x, ms[..|ms| - 1]);
    }
  }

  /** One more score adds itself to the batch of its key and nothing to the
      other batches. */
  lemma MembersSumStep(p: seq<int>, x: int, s: int)
    ensures SumAt(p + [x], MembersWithScore(p + [x], s))
         == SumAt(p, MembersWithScore(p, s)) + if x == s then x else 0
  {
    var xs := p + [x];
    assert xs[..|xs| - 1] == p;
    var ms := MembersWithScore(p, s);
    SumAtExtend(p, x, ms);
    if x == s {
      SumAtConcat(xs, ms, [|p|]);
      assert [|p|][..0] == [];
    }
  }

  /** A batch adds exactly the scores equal to its key. */
  lemma {:induction false} MembersSum(xs: seq<int>, s: int)
    ensures SumAt(xs, MembersWithScore(xs, s)) == SumWhere(xs, {s})
    decreases |xs|
  {
    if xs != [] {
      var p, x := xs[..|xs| - 1], xs[|xs| - 1];
      assert xs == p + [x];
      MembersSum(p, s);
      MembersSumStep(p, x, s);
    }
  }

  /** Summing over disjoint key sets adds up. */
  lemma {:induction false} SumWhereSplit(xs: seq<int>, keys: set<int>, k: int)
    requires k !in keys
    ensures SumWhere(xs, keys + {k}) == SumWhere(xs, keys) + SumWhere(xs, {k})
    decreases |xs|
  {
    if xs != [] {
      SumWhereSplit(xs[..|xs| - 1], keys, k);
    }
  }

  /** Keys covering every non-zero score sum to the total of all scores. */
  lemma {:induction false} SumWhereCovers(xs: seq<int>, keys: set<int>)
    requires forall i :: 0 <= i < |xs| && xs[i] != 0 ==> xs[i] in keys
    ensures SumWhere(xs, keys) == Sum(xs)
    decreases |xs|
  {
    if xs != [] {
      SumWhereCovers(xs[..|xs| - 1], keys);
    }
  }

  /** The keys as a set. */
  function KeySet(ks: seq<int>): (keys: set<int>)
    ensures forall k :: k in keys <==> k in ks
  {
    if ks == [] then {} else KeySet(ks[..|ks| - 1]) + {ks[|ks| - 1]}
  }

  /** The batches of distinct keys add the scores lying in those keys. */
  lemma {:induction false} BatchesForTotal(xs: seq<int>, ks: seq<int>)
    requires StrictlyAscending(ks)
    ensures MembersIn(xs, BatchesFor(xs, ks))
    ensures BatchesTotal(xs, BatchesFor(xs, ks)) == SumWhere(xs, KeySet(ks))
    decreases |ks|
  {
    var bs := BatchesFor(xs, ks);
    assert MembersIn(xs, bs);
    if ks == [] {
      SumWhereEmpty(xs);
    } else {
      var front, last := ks[..|ks| - 1], ks[|ks| - 1];
      BatchesForTotal(xs, front);
      assert bs[..|bs| - 1] == BatchesFor(xs, front);
      assert last !in KeySet(front);
      MembersSum(xs, last);
      SumWhereSplit(xs, KeySet(front), last);
    }
  }

  lemma {:induction false} SumWhereEmpty(xs: seq<int>)
    ensures SumWhere(xs, {}) == 0
    decreases |xs|
  {
    if xs != [] {
      SumWhereEmpty(xs[..|xs| - 1]);
    }
  }

  /** One more member of a batch adds its score. */
  lemma SumAtStep(xs: seq<int>, ms: seq<nat>, m: nat)
    requires Within(xs, ms) && m < |ms|
    ensures Within(xs, ms[..m]) && Within(xs, ms[..m + 1])
    ensures SumAt(xs, ms[..m + 1]) == SumAt(xs, ms[..m]) + xs[ms[m]]
  {
    assert ms[..m + 1][..m] == ms[..m];
  }

  /** One more batch adds the sum of its members' scores. */
  lemma BatchesTotalStep(xs: seq<int>, bs: seq<Batch>, b: nat)
    requires MembersIn(xs, bs) && b < |bs|
    ensures MembersIn(xs, bs[..b]) && MembersIn(xs, bs[..b + 1]) && Within(xs, bs[b].members)
    ensures BatchesTotal(xs, bs[..b + 1]) == BatchesTotal(xs, bs[..b]) + SumAt(xs, bs[b].members)
  {
    assert bs[..b + 1][..b] == bs[..b];
  }

  /** The whole tabulation adds the sum of all viewport scores: every non-zero
      score is counted exactly once, and the dropped zero group adds nothing. */
  lemma TabulationTotal(v: seq<Symbol>)
    ensures MembersIn(Scores(v), Batches(v))
    ensures BatchesTotal(Scores(v), Batches(v)) == ScoreSum(v)
  {
    var xs := Scores(v);
    var ks := ScoreKeys(xs);
    BatchesForTotal(xs, ks);
    SumWhereCovers(xs, KeySet(ks));
  }

  /** The effect pass of a spin: every grid position is visited in order and
      the symbols that have targets are activated (animated). It changes
      neither the viewport nor the score. */
  method ActivateSymbols(viewport: seq<Symbol>) returns (activated: seq<nat>)
    requires |viewport| == SymbolCount
    ensures forall i: nat :: i in activated <==> i < SymbolCount && viewport[i].def.hasTargets
    ensures StrictlyAscending(activated)
  {
    activated := [];
    for i := 0 to SymbolCount
      invariant forall k: nat :: k in activated <==> k < i && viewport[k].def.hasTargets
      invariant forall k :: 0 <= k < |activated| ==> activated[k] < i
      invariant StrictlyAscending(activated)
    {
      if viewport[i].def.hasTargets {
        activated := activated + [i];
      }
    }
  }

  /** Batch after batch, every member adds its score (`xs` holds the score
      of each position) to the running total. */
  method AddBatches(xs: seq<int>, batches: seq<Batch>) returns (added: int)
    requires MembersIn(xs, batches)
    ensures added == BatchesTotal(xs, batches)
  {
    added := 0;
    for b := 0 to |batches|
      invariant MembersIn(xs, batches[..b])
      invariant added == BatchesTotal(xs, batches[..b])
    {
      var members := batches[b].members;
      BatchesTotalStep(xs, batches, b);
      for m := 0 to |members|
        invariant Within(xs, members[..m])
        invariant added == BatchesTotal(xs, batches[..b]) + SumAt(xs, members[..m])
      {
        SumAtStep(xs, members, m);
        added := added + xs[members[m]];
      }
      assert members[..|members|] == members;
    }
    assert batches[..|batches|] == batches;
  }

  /** The tabulation of a spin: the batches of the viewport, added in order,
      give the sum of all viewport scores. */
  method TabulateScore(viewport: seq<Symbol>) returns (added: int)
    ensures added == ScoreSum(viewport)
  {
    TabulationTotal(viewport);
    added := AddBatches(Scores(viewport), Batches(viewport));
  }

  /** `processSpin`: the effect pass, then the tabulation. */
  method ProcessSpin(viewport: seq<Symbol>) returns (activated: seq<nat>, added: int)
    requires |viewport| == SymbolCount
    ensures forall i: nat :: i in activated <==> i < SymbolCount && viewport[i].def.hasTargets
    ensures added == ScoreSum(viewport)
  {
    activated := ActivateSymbols(viewport);
    added := TabulateScore(viewport);
  }
}
