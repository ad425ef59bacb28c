/** The nDCG@10 of the evaluation report (evaluation/postmortem_eval/runner.py:306-325). The rank
    weights 1 / log2(rank + 2) enter only as positive and strictly decreasing; sums are exact. */
module Ndcg {
  import opened Contracts
  import opened Sorting

  const CUTOFF := 10

  type Weights = int -> real

  ghost predicate Decreasing(w: Weights) {
    && (forall i {:trigger w(i)} :: 0 <= i ==> w(i) > 0.0)
    && (forall i, j {:trigger w(i), w(j)} :: 0 <= i < j ==> w(j) < w(i))
  }

  predicate Distinct(ids: seq<int>) { forall i, j :: 0 <= i < j < |ids| ==> ids[i] != ids[j] }

  /** Sum of the first n weights. */
  function Ideal(w: Weights, n: nat): real {
    if n == 0 then 0.0 else Ideal(w, n - 1) + w(n - 1)
  }

  /** Gain of a list: the weights of the ranks that hold a gold id. */
  function Gain(w: Weights, ids: seq<int>, gold: set<int>): real {
    if ids == [] then 0.0
    else
      var last := |ids| - 1;
      Gain(w, ids[..last], gold) + if ids[last] in gold then w(last) else 0.0
  }

  function TopTen(ids: seq<int>): seq<int> { if |ids| <= CUTOFF then ids else ids[..CUTOFF] }

  function Dcg(w: Weights, retrieved: seq<int>, gold: set<int>): real { Gain(w, TopTen(retrieved), gold) }

  function IdealHits(gold: set<int>): nat { if |gold| < CUTOFF then |gold| else CUTOFF }

  function NdcgOf(w: Weights, retrieved: seq<int>, gold: set<int>): real {
    var ideal := Ideal(w, IdealHits(gold));
    if ideal == 0.0 then 0.0 else Dcg(w, retrieved, gold) / ideal
  }

  /** Every one of the first n ranks holds a gold id. */
  predicate Filled(ids: seq<int>, gold: set<int>, n: nat) {
    n <= |ids| && forall i :: 0 <= i < n ==> ids[i] in gold
  }

  ghost function Hits(ids: seq<int>, gold: set<int>): set<int> { set x | x in ids && x in gold }

  lemma {:induction false} IdealRises(w: Weights, m: nat, n: nat)
    requires Decreasing(w) && m <= n
    ensures Ideal(w, m) <= Ideal(w, n)
    ensures m < n ==> Ideal(w, m) < Ideal(w, n)
    decreases n
  {
    if m < n {
      IdealRises(w, m, n - 1);
      assert w(n - 1) > 0.0;
    }
  }

  lemma HitsOfLonger(ids: seq<int>, gold: set<int>)
    requires ids != [] && Distinct(ids)
    ensures var last := |ids| - 1;
            |Hits(ids, gold)| == |Hits(ids[..last], gold)| + if ids[last] in gold then 1 else 0
  {
    var last := |ids| - 1;
    assert ids == ids[..last] + [ids[last]];
    assert Hits(ids, gold) == Hits(ids[..last], gold) + if ids[last] in gold then {ids[last]} else {};
  }

  /** With h hits the gain is at most that of the first h ranks, and reaches it only there. */
  lemma {:induction false} GainBound(w: Weights, ids: seq<int>, gold: set<int>)
    requires Decreasing(w) && Distinct(ids)
    ensures var h := |Hits(ids, gold)|;
            && h <= |ids|
            && Gain(w, ids, gold) <= Ideal(w, h)
            && (Gain(w, ids, gold) == Ideal(w, h) <==> Filled(ids, gold, h))
  {
    if ids == [] {
      assert Hits(ids, gold) == {};
    } else {
      var last := |ids| - 1;
      var front := ids[..last];
      GainBound(w, front, gold);
      HitsOfLonger(ids, gold);
      var h := |Hits(front, gold)|;
      if ids[last] in gold {
        if h < last {
          assert w(last) < w(h);
          if Filled(ids, gold, h + 1) { FilledNeedsHits(front, gold, h + 1); }
        } else {
          assert Filled(ids, gold, h + 1) <==> Filled(front, gold, h);
        }
      } else {
        assert Filled(ids, gold, h) <==> Filled(front, gold, h);
      }
    }
  }

  /** n filled ranks are n hits. */
  lemma FilledNeedsHits(ids: seq<int>, gold: set<int>, n: nat)
    requires Distinct(ids) && Filled(ids, gold, n)
    ensures n <= |Hits(ids, gold)|
  {
    var head := ids[..n];
    FilledCounts(head, gold);
    assert Hits(head, gold) <= Hits(ids, gold);
    SubsetIsSmaller(Hits(head, gold), Hits(ids, gold));
  }

  lemma {:induction false} FilledCounts(ids: seq<int>, gold: set<int>)
    requires Distinct(ids) && Filled(ids, gold, |ids|)
    ensures |Hits(ids, gold)| == |ids|
  {
    if ids == [] {
      assert Hits(ids, gold) == {};
    } else {
      FilledCounts(ids[..|ids| - 1], gold);
      HitsOfLonger(ids, gold);
    }
  }

  /** The bound: for distinct ids the gain of the first ten never exceeds the ideal, and equals
      it exactly when the first min(|gold|, 10) ranks all hold gold ids. */
  lemma DcgIsBounded(w: Weights, retrieved: seq<int>, gold: set<int>)
    requires Decreasing(w) && Distinct(retrieved)
    ensures 0.0 <= Dcg(w, retrieved, gold) <= Ideal(w, IdealHits(gold))
    ensures Dcg(w, retrieved, gold) == Ideal(w, IdealHits(gold)) <==> Filled(TopTen(retrieved), gold, IdealHits(gold))
  {
    var top := TopTen(retrieved);
    var h := |Hits(top, gold)|;
    var n := IdealHits(gold);
    GainBound(w, top, gold);
    GainIsPositive(w, top, gold);
    SubsetIsSmaller(Hits(top, gold), gold);
    IdealRises(w, h, n);
    if Filled(top, gold, n) { FilledNeedsHits(top, gold, n); }
  }

  lemma {:induction false} GainIsPositive(w: Weights, ids: seq<int>, gold: set<int>)
    requires Decreasing(w)
    ensures Gain(w, ids, gold) >= 0.0
  {
    if ids != [] {
      GainIsPositive(w, ids[..|ids| - 1], gold);
      assert w(|ids| - 1) > 0.0;
    }
  }

  lemma NdcgIsARatio(w: Weights, retrieved: seq<int>, gold: set<int>)
    requires Decreasing(w) && Distinct(retrieved)
    ensures 0.0 <= NdcgOf(w, retrieved, gold) <= 1.0
    ensures NdcgOf(w, retrieved, gold) == 1.0 <==> gold != {} && Filled(TopTen(retrieved), gold, IdealHits(gold))
    ensures gold == {} ==> NdcgOf(w, retrieved, gold) == 0.0
    ensures gold != {} ==> NdcgOf(w, retrieved, gold) * Ideal(w, IdealHits(gold)) == Dcg(w, retrieved, gold)
  {
    DcgIsBounded(w, retrieved, gold);
    var n := IdealHits(gold);
    if gold == {} {
      assert n == 0;
    } else {
      assert |gold| > 0;
      IdealRises(w, 0, n);
      RatioOf(Dcg(w, retrieved, gold), Ideal(w, n));
      QuotientTimesWhole(Dcg(w, retrieved, gold), Ideal(w, n));
    }
  }

  lemma QuotientTimesWhole(part: real, whole: real)
    requires whole > 0.0
    ensures part / whole * whole == part
  {}

  lemma RatioOf(part: real, whole: real)
    requires 0.0 <= part <= whole && whole > 0.0
    ensures 0.0 <= part / whole <= 1.0
    ensures part / whole == 1.0 <==> part == whole
  {}

  /** Repeated ids are not covered by the bound: one gold memory listed twice beats the ideal. */
  lemma RepeatsExceedTheIdeal(w: Weights)
    requires Decreasing(w)
    ensures Dcg(w, [7, 7], {7}) > Ideal(w, IdealHits({7}))
  {
    assert [7, 7][..1] == [7] && [7][..0] == [];
    assert Ideal(w, 1) == Ideal(w, 0) + w(0);
    assert w(1) > 0.0;
    assert Gain(w, [7], {7}) == w(0);
  }

  /** Ranks beyond the tenth, and gold ids beyond ten, do not count. */
  lemma OnlyTenCount(w: Weights, retrieved: seq<int>, more: seq<int>, gold: set<int>)
    ensures |retrieved| == 10 ==> Dcg(w, retrieved + more, gold) == Dcg(w, retrieved, gold)
    ensures |retrieved| <= 10 ==> Dcg(w, retrieved, gold) == Gain(w, retrieved, gold)
    ensures IdealHits(gold) == if |gold| > 10 then 10 else |gold|
  {
    if |retrieved| == 10 {
      assert (retrieved + more)[..10] == retrieved;
      assert more == [] ==> retrieved + more == retrieved;
    }
  }

  // ---- Lists with repeats ----------------------------------------------------

  /** How many ranks hold a gold id, a repeated one counting every time. */
  function Places(ids: seq<int>, gold: set<int>): (n: nat)
    ensures n <= |ids|
  {
    if ids == [] then 0
    else Places(ids[..|ids| - 1], gold) + if ids[|ids| - 1] in gold then 1 else 0
  }

  lemma {:induction false} GainOfPlaces(w: Weights, ids: seq<int>, gold: set<int>)
    requires Decreasing(w)
    ensures Gain(w, ids, gold) <= Ideal(w, Places(ids, gold))
  {
    if ids != [] {
      var last := |ids| - 1;
      GainOfPlaces(w, ids[..last], gold);
      var n := Places(ids[..last], gold);
      assert n < last ==> w(last) < w(n);
    }
  }

  /** Positive, decreasing, and nearly flat: every weight lies between 10 and 11. */
  const FLAT: Weights := i => 10.0 + 1.0 / ((if i < 0 then 0 else i) + 1) as real

  lemma ReciprocalsFall(i: int, j: int)
    requires 0 <= i < j
    ensures 0.0 < 1.0 / (j + 1) as real < 1.0 / (i + 1) as real <= 1.0
  {
    var a, b := (i + 1) as real, (j + 1) as real;
    assert 1.0 <= a < b;
    assert (1.0 / a) * a == 1.0 && (1.0 / b) * b == 1.0;
  }

  lemma FlatIsDecreasing()
    ensures Decreasing(FLAT)
    ensures forall i {:trigger FLAT(i)} :: 0 <= i ==> 10.0 < FLAT(i) <= 11.0
  {
    forall i {:trigger FLAT(i)} | 0 <= i ensures 10.0 < FLAT(i) <= 11.0 { ReciprocalsFall(i, i + 1); }
    forall i, j {:trigger FLAT(i), FLAT(j)} | 0 <= i < j ensures FLAT(j) < FLAT(i) { ReciprocalsFall(i, j); }
  }

  lemma {:induction false} FlatGain(ids: seq<int>, gold: set<int>)
    ensures Gain(FLAT, ids, gold) >= 10.0 * Places(ids, gold) as real
  {
    FlatIsDecreasing();
    if ids != [] {
      FlatGain(ids[..|ids| - 1], gold);
      assert FLAT(|ids| - 1) > 10.0;
    }
  }

  lemma {:induction false} FlatIdeal(n: nat)
    ensures Ideal(FLAT, n) <= 11.0 * n as real
  {
    FlatIsDecreasing();
    if n > 0 {
      FlatIdeal(n - 1);
      assert FLAT(n - 1) <= 11.0;
    }
  }

  /** The ideal bounds the gain under these weights. */
  ghost predicate Bounded(w: Weights, retrieved: seq<int>, gold: set<int>) {
    Dcg(w, retrieved, gold) <= Ideal(w, IdealHits(gold))
  }

  lemma FlatBreaksTheBound(retrieved: seq<int>, gold: set<int>)
    requires Places(TopTen(retrieved), gold) > |gold|
    ensures !Bounded(FLAT, retrieved, gold)
  {
    FlatGain(TopTen(retrieved), gold);
    FlatIdeal(|gold|);
    assert |gold| < CUTOFF;
  }

  /** For any list, repeats and all, the bound holds under all decreasing positive weights if and
      only if no more than |gold| of the first ten ranks hold a gold id. */
  lemma BoundHoldsIff(retrieved: seq<int>, gold: set<int>)
    ensures (forall w :: Decreasing(w) ==> Bounded(w, retrieved, gold)) <==> Places(TopTen(retrieved), gold) <= |gold|
  {
    if Places(TopTen(retrieved), gold) <= |gold| {
      forall w | Decreasing(w) ensures Bounded(w, retrieved, gold) {
        GainOfPlaces(w, TopTen(retrieved), gold);
        IdealRises(w, Places(TopTen(retrieved), gold), IdealHits(gold));
      }
    } else {
      FlatIsDecreasing();
      FlatBreaksTheBound(retrieved, gold);
    }
  }

  datatype Scored = Scored(retrieved: seq<int>, gold: set<int>)

  predicate Perfect(s: Scored) { s.gold != {} && Filled(TopTen(s.retrieved), s.gold, IdealHits(s.gold)) }

  /** The scores of the queries, in order. */
  function Scores(w: Weights, scored: seq<Scored>): seq<real>
    requires Decreasing(w)
  {
    seq(|scored|, i requires 0 <= i < |scored| => NdcgOf(w, scored[i].retrieved, scored[i].gold))
  }

  function Sum(values: seq<real>): real {
    if values == [] then 0.0 else Sum(values[..|values| - 1]) + values[|values| - 1]
  }

  /** Values in the unit interval. */
  predicate Shares(values: seq<real>) { forall i :: 0 <= i < |values| ==> 0.0 <= values[i] <= 1.0 }

  predicate IsMean(mean: real, values: seq<real>) { mean * |values| as real == Sum(values) }

  predicate AllOnes(values: seq<real>) { forall i :: 0 <= i < |values| ==> values[i] == 1.0 }

  predicate AllPerfect(scored: seq<Scored>) { forall i :: 0 <= i < |scored| ==> Perfect(scored[i]) }

  /** Values in the unit interval sum to no more than their number, and to it only if all are 1. */
  lemma {:induction false} SumOfShares(values: seq<real>)
    requires Shares(values)
    ensures 0.0 <= Sum(values) <= |values| as real
    ensures Sum(values) == |values| as real <==> AllOnes(values)
  {
    if values != [] {
      var front := values[..|values| - 1];
      SumOfShares(front);
      assert (forall i :: 0 <= i < |values| ==> values[i] == 1.0) <==>
             (forall i :: 0 <= i < |front| ==> front[i] == 1.0) && values[|values| - 1] == 1.0 by {
        assert forall i :: 0 <= i < |front| ==> front[i] == values[i];
      }
    }
  }

  lemma ScoresAreShares(w: Weights, scored: seq<Scored>, values: seq<real>)
    requires Decreasing(w) && forall i :: 0 <= i < |scored| ==> Distinct(scored[i].retrieved)
    requires values == Scores(w, scored)
    ensures |values| == |scored| && Shares(values)
    ensures AllOnes(values) <==> AllPerfect(scored)
  {
    forall i | 0 <= i < |values| ensures 0.0 <= values[i] <= 1.0 && (values[i] == 1.0 <==> Perfect(scored[i])) {
      NdcgIsARatio(w, scored[i].retrieved, scored[i].gold);
    }
  }

  lemma ShareOf(total: real, n: nat)
    requires n > 0 && 0.0 <= total <= n as real
    ensures var mean := total / n as real;
            0.0 <= mean <= 1.0 && (mean == 1.0 <==> total == n as real) && mean * n as real == total
  {
    RatioOf(total, n as real);
    QuotientTimesWhole(total, n as real);
  }

  /** statistics.mean of values in the unit interval. */
  method Mean(values: seq<real>) returns (mean: real)
    requires values != [] && Shares(values)
    ensures IsMean(mean, values)
    ensures 0.0 <= mean <= 1.0 && (mean == 1.0 <==> AllOnes(values))
  {
    var total := 0.0;
    for i := 0 to |values|
      invariant total == Sum(values[..i])
    {
      assert values[..i + 1][..i] == values[..i];
      total := total + values[i];
    }
    assert values[..|values|] == values;
    SumOfShares(values);
    ShareOf(total, |values|);
    mean := total / |values| as real;
  }

  lemma OneMoreScore(w: Weights, scored: seq<Scored>, i: nat)
    requires Decreasing(w) && i < |scored|
    ensures Scores(w, scored[..i + 1]) == Scores(w, scored[..i]) + [NdcgOf(w, scored[i].retrieved, scored[i].gold)]
  {}

  method ScoreAll(w: Weights, scored: seq<Scored>) returns (values: seq<real>)
    requires Decreasing(w)
    ensures values == Scores(w, scored)
  {
    values := [];
    for i := 0 to |scored|
      invariant values == Scores(w, scored[..i])
    {
      var value := NdcgOf(w, scored[i].retrieved, scored[i].gold);
      OneMoreScore(w, scored, i);
      values := values + [value];
    }
    assert scored[..|scored|] == scored;
  }

  /** The mean of the queries' scores: between 0 and 1, and 1 exactly when every query is perfect.
      No query at all is an error in the report. */
  method MeanNdcg(w: Weights, scored: seq<Scored>) returns (mean: Option<real>)
    requires Decreasing(w)
    requires forall i :: 0 <= i < |scored| ==> Distinct(scored[i].retrieved)
    ensures mean == None <==> scored == []
    ensures mean.Some? ==> IsMean(mean.value, Scores(w, scored))
    ensures mean.Some? ==>
              && 0.0 <= mean.value <= 1.0
              && (mean.value == 1.0 <==> AllPerfect(scored))
  {
    if scored == [] { return None; }
    var values := ScoreAll(w, scored);
    ScoresAreShares(w, scored, values);
    var share := Mean(values);
    return Some(share);
  }
}
