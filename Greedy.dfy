/** The uniform-weight shortcut of `prunePoints.iterate` in src/ranker.py:
    when every point has the same line height, the points are ranked by
    similarity with Python's stable `sorted(..., reverse=True)` and the first
    `capacity // height` of the ranking are chosen. */
module Greedy {
  import opened Knapsack

  /** Item a ranks ahead of item b: a higher value, or an equal value and an
      earlier position (a stable sort keeps equal keys in input order, also
      when it sorts in reverse). */
  predicate Beats(values: seq<real>, a: nat, b: nat)
    requires a < |values| && b < |values|
  {
    values[a] > values[b] || (values[a] == values[b] && a < b)
  }

  lemma BeatsTotal(values: seq<real>, a: nat, b: nat)
    requires a < |values| && b < |values| && a != b
    ensures Beats(values, a, b) || Beats(values, b, a)
  {
  }

  lemma BeatsTransitive(values: seq<real>, a: nat, b: nat, c: nat)
    requires a < |values| && b < |values| && c < |values|
    requires Beats(values, a, b) && Beats(values, b, c)
    ensures Beats(values, a, c)
  {
  }

  /** A ranking: positions of `values`, each ranking strictly ahead of every
      later one (so no position occurs twice). */
  predicate Ranked(values: seq<real>, order: seq<nat>)
  {
    (forall p :: 0 <= p < |order| ==> order[p] < |values|)
    && (forall p, q :: 0 <= p < q < |order| ==> Beats(values, order[p], order[q]))
  }

  /** Inserts k in front of the first entry it ranks ahead of. */
  function Insert(values: seq<real>, order: seq<nat>, k: nat): (r: seq<nat>)
    requires k < |values|
    requires forall p :: 0 <= p < |order| ==> order[p] < |values|
    ensures |r| == |order| + 1
    ensures forall x :: x in r <==> x in order || x == k
    ensures forall p :: 0 <= p < |r| ==> r[p] < |values|
    decreases |order|
  {
    if |order| == 0 then [k]
    else if Beats(values, k, order[0]) then [k] + order
    else [order[0]] + Insert(values, order[1..], k)
  }

  /** `sorted(range(n), key=values.__getitem__, reverse=True)`, as an
      insertion sort of the positions 0 .. n-1. */
  function Ranking(values: seq<real>, n: nat): (r: seq<nat>)
    requires n <= |values|
    ensures |r| == n && forall x :: x in r <==> 0 <= x < n
    ensures forall p :: 0 <= p < |r| ==> r[p] < n
  {
    if n == 0 then []
    else
      var r := Insert(values, Ranking(values, n - 1), n - 1);
      assert forall p :: 0 <= p < |r| ==> r[p] in r;
      r
  }

  /** A ranked list with one more entry in front that ranks ahead of all of
      it is still ranked. */
  lemma RankedCons(values: seq<real>, a: nat, order: seq<nat>)
    requires a < |values| && Ranked(values, order)
    requires forall p :: 0 <= p < |order| ==> Beats(values, a, order[p])
    ensures Ranked(values, [a] + order)
  {
    var r := [a] + order;
    forall p, q | 0 <= p < q < |r|
      ensures Beats(values, r[p], r[q])
    {
      if p > 0 {
        assert r[p] == order[p - 1] && r[q] == order[q - 1];
      }
    }
  }

  /** Inserting a new position into a ranking keeps it a ranking. */
  lemma {:induction false} InsertRanked(values: seq<real>, order: seq<nat>, k: nat)
    requires k < |values| && Ranked(values, order) && k !in order
    ensures Ranked(values, Insert(values, order, k))
    decreases |order|
  {
    if |order| == 0 {
    } else if Beats(values, k, order[0]) {
      forall p | 0 <= p < |order|
        ensures Beats(values, k, order[p])
      {
        if p > 0 {
          BeatsTransitive(values, k, order[0], order[p]);
        }
      }
      RankedCons(values, k, order);
    } else {
      var rest := order[1..];
      assert Ranked(values, rest) by {
        forall p, q | 0 <= p < q < |rest|
          ensures Beats(values, rest[p], rest[q])
        {
          assert rest[p] == order[p + 1] && rest[q] == order[q + 1];
        }
      }
      assert k !in rest by {
        assert forall x :: x in rest ==> x in order;
      }
      InsertRanked(values, rest, k);
      var ins := Insert(values, rest, k);
      BeatsTotal(values, k, order[0]);
      forall p | 0 <= p < |ins|
        ensures Beats(values, order[0], ins[p])
      {
        if ins[p] != k {
          assert ins[p] in rest;
          var q :| 0 <= q < |rest| && rest[q] == ins[p];
          assert order[q + 1] == ins[p];
        }
      }
      RankedCons(values, order[0], ins);
    }
  }

  /** The ranking of the first n positions is a ranking holding each of
      them exactly once. */
  lemma {:induction false} RankingFacts(values: seq<real>, n: nat)
    requires n <= |values|
    ensures Ranked(values, Ranking(values, n))
  {
    if n > 0 {
      RankingFacts(values, n - 1);
      InsertRanked(values, Ranking(values, n - 1), n - 1);
    }
  }

  // ---- masks ----

  function AllFalse(n: nat): (mask: seq<bool>)
    ensures |mask| == n && forall i :: 0 <= i < n ==> !mask[i]
  {
    seq(n, _ => false)
  }

  /** Number of chosen entries. */
  function Count(mask: seq<bool>): nat
    decreases |mask|
  {
    if |mask| == 0 then 0 else Count(mask[..|mask| - 1]) + (if mask[|mask| - 1] then 1 else 0)
  }

  lemma {:induction false} CountNone(n: nat)
    ensures Count(AllFalse(n)) == 0
  {
    if n > 0 {
      assert AllFalse(n)[..n - 1] == AllFalse(n - 1);
      CountNone(n - 1);
    }
  }

  /** Choosing one more entry adds one to the count. */
  lemma {:induction false} CountFlip(mask: seq<bool>, i: nat)
    requires i < |mask| && !mask[i]
    ensures Count(mask[i := true]) == Count(mask) + 1
    decreases |mask|
  {
    var n := |mask|;
    var m := mask[i := true];
    assert m[..n - 1] == if i < n - 1 then mask[..n - 1][i := true] else mask[..n - 1];
    if i < n - 1 {
      CountFlip(mask[..n - 1], i);
    }
  }

  /** `for i in order[:k]: chosen[i] = True`, from an all-false mask. */
  function Mark(n: nat, order: seq<nat>, k: nat): (mask: seq<bool>)
    requires k <= |order|
    requires forall p :: 0 <= p < |order| ==> order[p] < n
    ensures |mask| == n
  {
    if k == 0 then AllFalse(n) else Mark(n, order, k - 1)[order[k - 1] := true]
  }

  /** A position is marked exactly when it is among the first k of the
      order; with no repeats in the order, k positions are marked. */
  lemma {:induction false} MarkFacts(n: nat, order: seq<nat>, k: nat)
    requires k <= |order|
    requires forall p :: 0 <= p < |order| ==> order[p] < n
    requires forall p, q :: 0 <= p < q < |order| ==> order[p] != order[q]
    ensures forall i :: 0 <= i < n ==> (Mark(n, order, k)[i] <==> i in order[..k])
    ensures Count(Mark(n, order, k)) == k
  {
    if k == 0 {
      CountNone(n);
    } else {
      MarkFacts(n, order, k - 1);
      assert order[..k] == order[..k - 1] + [order[k - 1]];
      assert order[k - 1] !in order[..k - 1];
      CountFlip(Mark(n, order, k - 1), order[k - 1]);
    }
  }

  function Min(a: nat, b: nat): nat
  {
    if a <= b then a else b
  }

  /** The shortcut's choice: the first `maxItems` of the ranking (all of
      them when there are fewer). */
  function TakeHighest(values: seq<real>, maxItems: nat): (mask: seq<bool>)
    ensures |mask| == |values|
  {
    RankingFacts(values, |values|);
    Mark(|values|, Ranking(values, |values|), Min(|values|, maxItems))
  }

  /** The shortcut chooses exactly min(n, maxItems) items, and every chosen
      item ranks ahead of every item left out: they are the highest-valued
      ones, ties going to the earlier item. */
  lemma GreedyTop(values: seq<real>, maxItems: nat)
    ensures Count(TakeHighest(values, maxItems)) == Min(|values|, maxItems)
    ensures forall i, j :: 0 <= i < |values| && 0 <= j < |values| ==>
      (TakeHighest(values, maxItems)[i] && !TakeHighest(values, maxItems)[j] ==> Beats(values, i, j))
  {
    var n := |values|;
    var order := Ranking(values, n);
    var k := Min(n, maxItems);
    RankingFacts(values, n);
    MarkFacts(n, order, k);
    var g := TakeHighest(values, maxItems);
    forall i, j | 0 <= i < n && 0 <= j < n && g[i] && !g[j]
      ensures Beats(values, i, j)
    {
      var p :| 0 <= p < k && order[p] == i;
      assert j in order;
      var q :| 0 <= q < n && order[q] == j;
    }
  }

  /** An all-false mask weighs nothing. */
  lemma {:induction false} WeightNone(weights: seq<nat>, n: nat)
    requires n <= |weights|
    ensures Weight(weights, AllFalse(n)) == 0
  {
    if n > 0 {
      assert AllFalse(n)[..n - 1] == AllFalse(n - 1);
      WeightNone(weights, n - 1);
    }
  }

  /** With every weight equal to w, a mask weighs w per chosen item. */
  lemma {:induction false} UniformWeight(weights: seq<nat>, mask: seq<bool>, w: nat)
    requires |mask| <= |weights|
    requires forall k :: 0 <= k < |weights| ==> weights[k] == w
    ensures Weight(weights, mask) == Count(mask) * w
    decreases |mask|
  {
    if |mask| > 0 {
      UniformWeight(weights, mask[..|mask| - 1], w);
      assert (Count(mask[..|mask| - 1]) + 1) * w == Count(mask[..|mask| - 1]) * w + w;
    }
  }
}
