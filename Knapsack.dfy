/** The 0/1 knapsack solver: `knapsack` in src/ranker.py and the standalone
    script knapsack.py. A DP table is filled row by row and the chosen items
    are read back from the last row to the first. Values are exact reals;
    weights and the capacity are Scaled Dimensions. */
module Knapsack {
  import opened Wrappers

  function Max(a: real, b: real): real
  {
    if a >= b then a else b
  }

  /** table[i][w]: row 0 and column 0 hold zero; any other cell is the
      better of skipping item i-1 and, when it fits in w, taking it. */
  function Best(values: seq<real>, weights: seq<nat>, i: nat, w: nat): real
    requires i <= |values| && |values| == |weights|
    decreases i
  {
    if i == 0 || w == 0 then 0.0
    else if weights[i - 1] <= w then
      Max(values[i - 1] + Best(values, weights, i - 1, w - weights[i - 1]), Best(values, weights, i - 1, w))
    else Best(values, weights, i - 1, w)
  }

  /** The backward walk: item i-1 is taken exactly when its row changes the
      cell, and the remaining capacity drops by its weight. */
  function Choose(values: seq<real>, weights: seq<nat>, i: nat, w: nat): (mask: seq<bool>)
    requires i <= |values| && |values| == |weights|
    ensures |mask| == i
    decreases i
  {
    if i == 0 then []
    else if Best(values, weights, i, w) != Best(values, weights, i - 1, w) then
      Choose(values, weights, i - 1, w - weights[i - 1]) + [true]
    else
      Choose(values, weights, i - 1, w) + [false]
  }

  /** Total value of the masked items among the first |mask|. */
  function Value(values: seq<real>, mask: seq<bool>): real
    requires |mask| <= |values|
    decreases |mask|
  {
    if |mask| == 0 then 0.0
    else Value(values, mask[..|mask| - 1]) + (if mask[|mask| - 1] then values[|mask| - 1] else 0.0)
  }

  /** Total weight of the masked items among the first |mask|. */
  function Weight(weights: seq<nat>, mask: seq<bool>): nat
    requires |mask| <= |weights|
    decreases |mask|
  {
    if |mask| == 0 then 0
    else Weight(weights, mask[..|mask| - 1]) + (if mask[|mask| - 1] then weights[|mask| - 1] else 0)
  }

  // ---- properties of the table ----

  /** Every cell is at least the cell above it, and so never negative. */
  lemma {:induction false} BestGrowsDown(values: seq<real>, weights: seq<nat>, i: nat, w: nat)
    requires i <= |values| && |values| == |weights|
    ensures Best(values, weights, i, w) >= 0.0
    ensures i > 0 ==> Best(values, weights, i, w) >= Best(values, weights, i - 1, w)
    decreases i
  {
    if i > 0 {
      BestGrowsDown(values, weights, i - 1, w);
    }
  }

  /** Along a row the table never decreases: more capacity is never worse. */
  lemma {:induction false} BestMonotone(values: seq<real>, weights: seq<nat>, i: nat, w: nat, w': nat)
    requires i <= |values| && |values| == |weights|
    requires w <= w'
    ensures Best(values, weights, i, w) <= Best(values, weights, i, w')
    decreases i
  {
    if i > 0 && w > 0 {
      BestMonotone(values, weights, i - 1, w, w');
      if weights[i - 1] <= w {
        BestMonotone(values, weights, i - 1, w - weights[i - 1], w' - weights[i - 1]);
      }
    } else if i > 0 {
      BestGrowsDown(values, weights, i, w');
    }
  }

  /** An item whose row changes the cell fits in that cell's capacity. */
  lemma TakenFits(values: seq<real>, weights: seq<nat>, i: nat, w: nat)
    requires 0 < i <= |values| && |values| == |weights|
    requires Best(values, weights, i, w) != Best(values, weights, i - 1, w)
    ensures 0 < w && weights[i - 1] <= w
    ensures Best(values, weights, i, w) == values[i - 1] + Best(values, weights, i - 1, w - weights[i - 1])
  {
  }

  /** Weight and value of a mask extended by one more decision. */
  lemma WeightSnoc(weights: seq<nat>, rest: seq<bool>, b: bool)
    requires |rest| < |weights|
    ensures Weight(weights, rest + [b]) == Weight(weights, rest) + (if b then weights[|rest|] else 0)
  {
    assert (rest + [b])[..|rest|] == rest;
  }

  lemma ValueSnoc(values: seq<real>, rest: seq<bool>, b: bool)
    requires |rest| < |values|
    ensures Value(values, rest + [b]) == Value(values, rest) + (if b then values[|rest|] else 0.0)
  {
    assert (rest + [b])[..|rest|] == rest;
  }

  /** Taking item i-1 adds its weight to that of the walk from the cell it
      leads to. */
  lemma ChooseFitsTaken(values: seq<real>, weights: seq<nat>, i: nat, w: nat)
    requires 0 < i <= |values| && |values| == |weights|
    requires Best(values, weights, i, w) != Best(values, weights, i - 1, w)
    requires weights[i - 1] <= w
    requires Weight(weights, Choose(values, weights, i - 1, w - weights[i - 1])) <= w - weights[i - 1]
    ensures Weight(weights, Choose(values, weights, i, w)) <= w
  {
    var rest := Choose(values, weights, i - 1, w - weights[i - 1]);
    assert Choose(values, weights, i, w) == rest + [true];
    WeightSnoc(weights, rest, true);
  }

  /** Skipping item i-1 keeps the weight of the walk from the cell above. */
  lemma ChooseFitsSkipped(values: seq<real>, weights: seq<nat>, i: nat, w: nat)
    requires 0 < i <= |values| && |values| == |weights|
    requires Best(values, weights, i, w) == Best(values, weights, i - 1, w)
    requires Weight(weights, Choose(values, weights, i - 1, w)) <= w
    ensures Weight(weights, Choose(values, weights, i, w)) <= w
  {
    var rest := Choose(values, weights, i - 1, w);
    assert Choose(values, weights, i, w) == rest + [false];
    WeightSnoc(weights, rest, false);
  }

  /** The walk never takes an item that does not fit what is left, so the
      chosen weights sum to at most the capacity. */
  lemma {:induction false} ChooseFits(values: seq<real>, weights: seq<nat>, i: nat, w: nat)
    requires i <= |values| && |values| == |weights|
    ensures Weight(weights, Choose(values, weights, i, w)) <= w
    decreases i
  {
    if i > 0 {
      if Best(values, weights, i, w) != Best(values, weights, i - 1, w) {
        TakenFits(values, weights, i, w);
        ChooseFits(values, weights, i - 1, w - weights[i - 1]);
        ChooseFitsTaken(values, weights, i, w);
      } else {
        ChooseFits(values, weights, i - 1, w);
        ChooseFitsSkipped(values, weights, i, w);
      }
    }
  }

  /** Taking item i-1 adds its value to that of the walk from the cell it
      leads to. */
  lemma ChooseValueTaken(values: seq<real>, weights: seq<nat>, i: nat, w: nat)
    requires 0 < i <= |values| && |values| == |weights|
    requires Best(values, weights, i, w) != Best(values, weights, i - 1, w)
    requires weights[i - 1] <= w
    requires Value(values, Choose(values, weights, i - 1, w - weights[i - 1]))
      == Best(values, weights, i - 1, w - weights[i - 1])
    ensures Value(values, Choose(values, weights, i, w)) == Best(values, weights, i, w)
  {
    TakenFits(values, weights, i, w);
    var rest := Choose(values, weights, i - 1, w - weights[i - 1]);
    assert Choose(values, weights, i, w) == rest + [true];
    ValueSnoc(values, rest, true);
  }

  /** Skipping item i-1 keeps the value of the walk from the cell above. */
  lemma ChooseValueSkipped(values: seq<real>, weights: seq<nat>, i: nat, w: nat)
    requires 0 < i <= |values| && |values| == |weights|
    requires Best(values, weights, i, w) == Best(values, weights, i - 1, w)
    requires Value(values, Choose(values, weights, i - 1, w)) == Best(values, weights, i - 1, w)
    ensures Value(values, Choose(values, weights, i, w)) == Best(values, weights, i, w)
  {
    var rest := Choose(values, weights, i - 1, w);
    assert Choose(values, weights, i, w) == rest + [false];
    ValueSnoc(values, rest, false);
  }

  /** The chosen items are worth exactly the final cell of the table. */
  lemma {:induction false} ChooseValue(values: seq<real>, weights: seq<nat>, i: nat, w: nat)
    requires i <= |values| && |values| == |weights|
    ensures Value(values, Choose(values, weights, i, w)) == Best(values, weights, i, w)
    decreases i
  {
    if i > 0 {
      if Best(values, weights, i, w) != Best(values, weights, i - 1, w) {
        TakenFits(values, weights, i, w);
        ChooseValue(values, weights, i - 1, w - weights[i - 1]);
        ChooseValueTaken(values, weights, i, w);
      } else {
        ChooseValue(values, weights, i - 1, w);
        ChooseValueSkipped(values, weights, i, w);
      }
    }
  }

  /** With positive weights no subset of the first i items that fits in w
      is worth more than the table cell. */
  lemma {:induction false} BestIsOptimal(values: seq<real>, weights: seq<nat>, i: nat, w: nat, mask: seq<bool>)
    requires i <= |values| && |values| == |weights|
    requires forall k :: 0 <= k < |weights| ==> weights[k] > 0
    requires |mask| == i && Weight(weights, mask) <= w
    ensures Value(values, mask) <= Best(values, weights, i, w)
    decreases i
  {
    if i > 0 {
      var init := mask[..i - 1];
      if mask[i - 1] {
        BestIsOptimal(values, weights, i - 1, w - weights[i - 1], init);
      } else {
        BestIsOptimal(values, weights, i - 1, w, init);
        BestGrowsDown(values, weights, i, w);
      }
    }
  }

  /** A zero-weight item can be lost: column 0 is never filled, so with
      items (value 5, weight 0) and (value 1, weight 1) and capacity 1 the
      table holds 5 while taking both items is worth 6 and fits. */
  lemma ZeroWeightShortfall()
    ensures Best([5.0, 1.0], [0, 1], 2, 1) == 5.0
    ensures Weight([0, 1], [true, true]) <= 1 && Value([5.0, 1.0], [true, true]) == 6.0
  {
    assert Best([5.0, 1.0], [0, 1], 1, 0) == 0.0;
    assert Best([5.0, 1.0], [0, 1], 1, 1) == 5.0;
    assert [true, true][..1] == [true];
  }

  // ---- the solver ----

  /** The first phase of `knapsack`: allocates the zeroed
      (n + 1) x (capacity + 1) table and fills rows 1..n, columns
      1..capacity. */
  method FillTable(values: seq<real>, weights: seq<nat>, capacity: nat) returns (table: array2<real>)
    requires |values| == |weights|
    ensures fresh(table)
    ensures table.Length0 == |values| + 1 && table.Length1 == capacity + 1
    ensures forall i, w :: 0 <= i <= |values| && 0 <= w <= capacity ==>
      table[i, w] == Best(values, weights, i, w)
  {
    var n := |values|;
    table := new real[n + 1, capacity + 1]((_, _) => 0.0);
    var i := 1;
    while i <= n
      invariant 1 <= i <= n + 1
      invariant forall r, c :: 0 <= r < i && 0 <= c <= capacity ==> table[r, c] == Best(values, weights, r, c)
      invariant forall r, c :: i <= r <= n && 0 <= c <= capacity ==> table[r, c] == 0.0
    {
      var w := 1;
      while w <= capacity
        invariant 1 <= w <= capacity + 1
        invariant forall r, c :: 0 <= r < i && 0 <= c <= capacity ==> table[r, c] == Best(values, weights, r, c)
        invariant forall c :: 0 <= c < w ==> table[i, c] == Best(values, weights, i, c)
        invariant forall r, c :: i < r <= n && 0 <= c <= capacity ==> table[r, c] == 0.0
        invariant forall c :: w <= c <= capacity ==> table[i, c] == 0.0
      {
        if weights[i - 1] <= w {
          table[i, w] := Max(values[i - 1] + table[i - 1, w - weights[i - 1]], table[i - 1, w]);
        } else {
          table[i, w] := table[i - 1, w];
        }
        w := w + 1;
      }
      i := i + 1;
    }
  }

  /** The second phase of `knapsack`: walks back from the last row,
      marking an item when its row changes the cell and taking its weight
      off what is left. */
  method Reconstruct(table: array2<real>, values: seq<real>, weights: seq<nat>, capacity: nat)
    returns (selected: seq<bool>)
    requires |values| == |weights|
    requires table.Length0 == |values| + 1 && table.Length1 == capacity + 1
    requires forall i, w :: 0 <= i <= |values| && 0 <= w <= capacity ==>
      table[i, w] == Best(values, weights, i, w)
    ensures selected == Choose(values, weights, |values|, capacity)
  {
    var n := |values|;
    selected := seq(n, _ => false);
    var w: nat := capacity;
    var i := n;
    while i > 0
      invariant 0 <= i <= n && w <= capacity && |selected| == n
      invariant forall k :: 0 <= k < i ==> !selected[k]
      invariant Choose(values, weights, n, capacity) == Choose(values, weights, i, w) + selected[i..]
    {
      ghost var before := selected;
      ghost var w0 := w;
      var taken := table[i, w] != table[i - 1, w];
      if taken {
        TakenFits(values, weights, i, w);
        selected := selected[i - 1 := true];
        w := w - weights[i - 1];
      }
      ReconstructStep(values, weights, i, w0, before, selected, taken);
      i := i - 1;
    }
  }

  /** One step of the backward walk moves decision i-1 from the walk still
      to come into the decided suffix of the mask. */
  lemma ReconstructStep(values: seq<real>, weights: seq<nat>, i: nat, w: nat,
                        before: seq<bool>, after: seq<bool>, taken: bool)
    requires 0 < i <= |before| == |values| == |weights|
    requires taken <==> Best(values, weights, i, w) != Best(values, weights, i - 1, w)
    requires after == before[i - 1 := taken || before[i - 1]]
    requires !before[i - 1]
    ensures taken ==> 0 < w && weights[i - 1] <= w
    ensures Choose(values, weights, i, w) + before[i..] ==
      Choose(values, weights, i - 1, if taken then w - weights[i - 1] else w) + after[i - 1..]
  {
    if taken {
      TakenFits(values, weights, i, w);
    }
    assert after[i - 1..] == [taken] + before[i..];
  }

  /** `knapsack` in src/ranker.py: stops with Exit when the lists differ in
      length; otherwise returns one flag per item whose chosen items fit the
      capacity and are worth the final table cell. */
  method Solve(values: seq<real>, weights: seq<nat>, capacity: nat) returns (selected: Result<seq<bool>>)
    ensures selected.Err? <==> |values| != |weights|
    ensures selected.Err? ==> selected.fault == Exit
    ensures selected.Ok? ==> selected.value == Choose(values, weights, |values|, capacity)
    ensures selected.Ok? ==> |selected.value| == |values|
    ensures selected.Ok? ==> Weight(weights, selected.value) <= capacity
    ensures selected.Ok? ==> Value(values, selected.value) == Best(values, weights, |values|, capacity)
  {
    if |values| != |weights| {
      return Err(Exit);
    }
    var table := FillTable(values, weights, capacity);
    var mask := Reconstruct(table, values, weights, capacity);
    ChooseFits(values, weights, |values|, capacity);
    ChooseValue(values, weights, |values|, capacity);
    selected := Ok(mask);
  }

  /** knapsack.py as a procedure of its inputs: stops with Exit when the
      lists differ in length; otherwise yields the last table cell and the
      selected mask, which is worth exactly that cell. */
  method Script(values: seq<real>, weights: seq<nat>, capacity: nat) returns (outcome: Result<(real, seq<bool>)>)
    ensures |values| != |weights| <==> outcome == Err(Exit)
    ensures outcome.Ok? ==> outcome.value.0 == Best(values, weights, |values|, capacity)
    ensures outcome.Ok? ==> outcome.value.1 == Choose(values, weights, |values|, capacity)
    ensures outcome.Ok? ==> Value(values, outcome.value.1) == outcome.value.0
  {
    if |values| != |weights| {
      return Err(Exit);
    }
    var table := FillTable(values, weights, capacity);
    var selected := Reconstruct(table, values, weights, capacity);
    var maxValue := table[|values|, capacity];
    ChooseValue(values, weights, |values|, capacity);
    outcome := Ok((maxValue, selected));
  }

  /** The inputs hard-coded in knapsack.py: values [1, 2, 5, 6], weights
      [2, 3, 4, 5], capacity 8. */
  const SCRIPT_VALUES: seq<real> := [1.0, 2.0, 5.0, 6.0]
  const SCRIPT_WEIGHTS: seq<nat> := [2, 3, 4, 5]
  const SCRIPT_CAPACITY: nat := 8

  /** For the hard-coded inputs the maximum value is 8, reached by the
      second and fourth items. */
  lemma ScriptResult()
    ensures Best(SCRIPT_VALUES, SCRIPT_WEIGHTS, 4, SCRIPT_CAPACITY) == 8.0
    ensures Choose(SCRIPT_VALUES, SCRIPT_WEIGHTS, 4, SCRIPT_CAPACITY) == [false, true, false, true]
  {
    var v, wt := SCRIPT_VALUES, SCRIPT_WEIGHTS;
    assert Best(v, wt, 1, 0) == 0.0;
    assert Best(v, wt, 1, 1) == 0.0;
    assert Best(v, wt, 1, 3) == 1.0;
    assert Best(v, wt, 2, 0) == 0.0;
    assert Best(v, wt, 2, 3) == 2.0;
    assert Best(v, wt, 3, 3) == 2.0;
    assert Best(v, wt, 1, 4) == 1.0;
    assert Best(v, wt, 1, 8) == 1.0;
    assert Best(v, wt, 1, 5) == 1.0;
    assert Best(v, wt, 2, 4) == 2.0;
    assert Best(v, wt, 2, 8) == 3.0;
    assert Best(v, wt, 3, 8) == 7.0;
    assert Best(v, wt, 4, 8) == 8.0;
    assert Choose(v, wt, 1, 0) == [false];
    assert Choose(v, wt, 2, 3) == [false, true];
    assert Choose(v, wt, 3, 3) == [false, true, false];
  }
}
