/** `prunePoints` in src/ranker.py: picks the bullet points that fill the
    remaining page height best. Each round solves a knapsack over the points
    (or takes the uniform-height shortcut), then charges the capacity for the
    jobs and sections the choice newly opens and credits it for those it
    closes; the rounds stop when the charge settles, when the capacity is
    used up, or after ten rounds. */
module Selector {
  import opened Wrappers
  import opened Core
  import opened Knapsack
  import opened Greedy
  import opened Catalog
  import opened Resume

  const MAX_ITERATIONS: nat := 10

  // ---- one round's choice: `iterate` ----

  /** Every weight equals the first (true of an empty list, as Python's
      `all` of an empty generator). */
  predicate Uniform(weights: seq<nat>)
  {
    forall k :: 0 <= k < |weights| ==> weights[k] == weights[0]
  }

  /** `iterate(_capacity)`: nothing when the capacity is not positive; the
      first `capacity // height` of the ranking when all heights are equal
      (failing on `targetWeights[0]` when there are no points, and on the
      division when the height is 0); the knapsack otherwise. */
  function Pick(values: seq<real>, weights: seq<nat>, capacity: int): (r: Result<seq<bool>>)
    requires |values| == |weights|
    ensures r.Ok? ==> |r.value| == |values|
  {
    if capacity <= 0 then Ok(AllFalse(|values|))
    else if Uniform(weights) then
      if |weights| == 0 then Err(IndexError)
      else if weights[0] == 0 then Err(ZeroDivisionError)
      else Ok(TakeHighest(values, capacity / weights[0]))
    else Ok(Choose(values, weights, |values|, capacity))
  }

  function Floor0(x: int): nat
  {
    if x <= 0 then 0 else x
  }

  /** A round fails exactly on the uniform shortcut with no points (at
      `targetWeights[0]`) or with zero-height points (at the division). */
  lemma PickFails(values: seq<real>, weights: seq<nat>, capacity: int)
    requires |values| == |weights|
    ensures Pick(values, weights, capacity).Err? <==>
      capacity > 0 && Uniform(weights) && (|weights| == 0 || weights[0] == 0)
    ensures Pick(values, weights, capacity).Err? ==>
      Pick(values, weights, capacity).fault == (if |weights| == 0 then IndexError else ZeroDivisionError)
  {
  }

  /** A capacity that is not positive chooses nothing. */
  lemma PickNothing(values: seq<real>, weights: seq<nat>, capacity: int)
    requires |values| == |weights| && capacity <= 0
    ensures Pick(values, weights, capacity) == Ok(AllFalse(|values|))
    ensures Weight(weights, AllFalse(|values|)) == 0
  {
    WeightNone(weights, |values|);
  }

  /** Whatever a round chooses fits: the chosen heights sum to at most the
      capacity, and to 0 when the capacity is not positive. */
  lemma PickFits(values: seq<real>, weights: seq<nat>, capacity: int)
    requires |values| == |weights|
    requires Pick(values, weights, capacity).Ok?
    ensures Weight(weights, Pick(values, weights, capacity).value) <= Floor0(capacity)
  {
    var n := |values|;
    if capacity <= 0 {
      PickNothing(values, weights, capacity);
    } else if Uniform(weights) {
      UniformFits(values, weights, capacity);
    } else {
      ChooseFits(values, weights, n, capacity);
    }
  }

  lemma MulMonotone(a: nat, b: nat, c: nat)
    requires a <= b
    ensures a * c <= b * c
  {
  }

  lemma FloorDivTimes(x: nat, w: nat)
    requires w > 0
    ensures (x / w) * w <= x
  {
    assert x == (x / w) * w + x % w;
  }

  /** The shortcut's choice of `capacity // height` equal-height points
      fits in the capacity. */
  lemma UniformFits(values: seq<real>, weights: seq<nat>, capacity: int)
    requires |values| == |weights| > 0 && Uniform(weights) && weights[0] > 0
    requires capacity > 0
    ensures Weight(weights, TakeHighest(values, capacity / weights[0])) <= capacity
  {
    var w := weights[0];
    var m := capacity / w;
    var mask := TakeHighest(values, m);
    GreedyTop(values, m);
    UniformWeight(weights, mask, w);
    MulMonotone(Count(mask), m, w);
    FloorDivTimes(capacity, w);
  }

  /** With equal positive heights, exactly min(n, capacity // height)
      points are chosen, and each chosen point ranks ahead of each point
      left out: the highest-similarity ones, ties to the earlier point. */
  lemma PickUniform(values: seq<real>, weights: seq<nat>, capacity: int)
    requires |values| == |weights| > 0 && Uniform(weights) && weights[0] > 0
    requires capacity > 0
    ensures Pick(values, weights, capacity).Ok?
    ensures Count(Pick(values, weights, capacity).value) == Min(|values|, capacity / weights[0])
    ensures forall i, j :: 0 <= i < |values| && 0 <= j < |values| ==>
      (Pick(values, weights, capacity).value[i] && !Pick(values, weights, capacity).value[j] ==>
         Beats(values, i, j))
  {
    GreedyTop(values, capacity / weights[0]);
  }

  /** With unequal heights the round takes the knapsack's choice, whose
      value is the best any fitting choice of positive-height points has. */
  lemma PickKnapsack(values: seq<real>, weights: seq<nat>, capacity: int, other: seq<bool>)
    requires |values| == |weights| && !Uniform(weights) && capacity > 0
    requires forall k :: 0 <= k < |weights| ==> weights[k] > 0
    requires |other| == |values| && Weight(weights, other) <= capacity
    ensures Pick(values, weights, capacity).Ok?
    ensures Value(values, Pick(values, weights, capacity).value) >= Value(values, other)
  {
    ChooseValue(values, weights, |values|, capacity);
    BestIsOptimal(values, weights, |values|, capacity, other);
  }

  /** `iterate`, with the shortcut's marking loop. */
  method Iterate(values: seq<real>, weights: seq<nat>, capacity: int) returns (chosen: Result<seq<bool>>)
    requires |values| == |weights|
    ensures chosen == Pick(values, weights, capacity)
  {
    if capacity <= 0 {
      return Ok(AllFalse(|values|));
    }
    if Uniform(weights) {
      if |weights| == 0 {
        return Err(IndexError);
      }
      if weights[0] == 0 {
        return Err(ZeroDivisionError);
      }
      var maxItems := capacity / weights[0];
      var sortedTargets := Ranking(values, |values|);
      var mask := AllFalse(|values|);
      var count := Min(|values|, maxItems);
      var p := 0;
      while p < count
        invariant 0 <= p <= count
        invariant mask == Mark(|values|, sortedTargets, p)
      {
        mask := mask[sortedTargets[p] := true];
        p := p + 1;
      }
      return Ok(mask);
    }
    chosen := Solve(values, weights, capacity);
  }

  // ---- the points and what a choice opens ----

  /** `[item for item in items if item.itemType == ItemType.POINT]`. */
  function Targets(items: seq<ProcessedItem>): seq<ProcessedItem>
  {
    OfType(items, POINT)
  }

  /** The targets are exactly the POINT items. */
  lemma TargetsFacts(items: seq<ProcessedItem>)
    ensures forall x :: x in Targets(items) <==> x in items && x.itemType == POINT
  {
    OfTypeFacts(items, POINT);
  }

  /** What `prunePoints` reads of a point: `metadata['jobIndex']`,
      `metadata['sectionIndex']` and `similarities[item.index]`. */
  predicate Located(item: ProcessedItem, similarities: seq<real>)
  {
    item.metadata.HasSection() && item.index < |similarities|
  }

  /** The inputs `prunePoints` can read without failing: every point carries
      its job and section and has a similarity. */
  predicate PointsLocated(items: seq<ProcessedItem>, similarities: seq<real>)
  {
    forall i :: 0 <= i < |items| && items[i].itemType == POINT ==> Located(items[i], similarities)
  }

  /** A batch scored item by item meets what `prunePoints` reads: each of
      its points carries a job and section and has a similarity. */
  lemma BatchLocated(font: FontMetrics, content: Content, jobPosting: string, similarities: seq<real>)
    requires |similarities| == |Batch(font, content, jobPosting)|
    ensures PointsLocated(Batch(font, content, jobPosting), similarities)
  {
    var b := Batch(font, content, jobPosting);
    BatchIndexed(font, content, jobPosting);
    BatchSkillsFirst(font, content, jobPosting);
    BatchPostingLast(font, content, jobPosting);
    BatchBody(font, content, jobPosting);
    forall i | 0 <= i < |b| && b[i].itemType == POINT ensures Located(b[i], similarities) {
      assert |content.skills.list| <= i < |b| - 1;
      assert Traces(content.experience.jobs, b[i]);
    }
  }

  function Similarities(targets: seq<ProcessedItem>, similarities: seq<real>): (values: seq<real>)
    requires forall k :: 0 <= k < |targets| ==> Located(targets[k], similarities)
    ensures |values| == |targets|
  {
    seq(|targets|, k requires 0 <= k < |targets| && Located(targets[k], similarities) =>
      similarities[targets[k].index])
  }

  function Heights(targets: seq<ProcessedItem>): (weights: seq<nat>)
    ensures |weights| == |targets|
  {
    seq(|targets|, k requires 0 <= k < |targets| => targets[k].lineHeight)
  }

  /** The jobs and the sections of the chosen points. Sections are told
      apart by their index alone, so equal section indices of different
      jobs count once. */
  function JobsOf(targets: seq<ProcessedItem>, chosen: seq<bool>): set<nat>
    requires |chosen| <= |targets|
    decreases |chosen|
  {
    if |chosen| == 0 then {}
    else
      var n := |chosen| - 1;
      JobsOf(targets, chosen[..n]) + (if chosen[n] then {JobOf(targets[n].metadata)} else {})
  }

  function SectionsOf(targets: seq<ProcessedItem>, chosen: seq<bool>): set<nat>
    requires |chosen| <= |targets|
    decreases |chosen|
  {
    if |chosen| == 0 then {}
    else
      var n := |chosen| - 1;
      SectionsOf(targets, chosen[..n]) + (if chosen[n] then {SectionOf(targets[n].metadata)} else {})
  }

  /** The loop over `enumerate(chosen)` collecting the distinct jobs and
      sections. */
  method DistinctOf(targets: seq<ProcessedItem>, chosen: seq<bool>)
    returns (distinctJobs: set<nat>, distinctSections: set<nat>)
    requires |chosen| == |targets|
    ensures distinctJobs == JobsOf(targets, chosen)
    ensures distinctSections == SectionsOf(targets, chosen)
  {
    distinctJobs, distinctSections := {}, {};
    var i := 0;
    while i < |chosen|
      invariant 0 <= i <= |chosen|
      invariant distinctJobs == JobsOf(targets, chosen[..i])
      invariant distinctSections == SectionsOf(targets, chosen[..i])
    {
      if chosen[i] {
        var item := targets[i];
        distinctJobs := distinctJobs + {JobOf(item.metadata)};
        distinctSections := distinctSections + {SectionOf(item.metadata)};
      }
      assert chosen[..i + 1] == chosen[..i] + [chosen[i]];
      i := i + 1;
    }
    assert chosen[..i] == chosen;
  }

  /** `netOverheadChange`: the overhead of the newly opened jobs and
      sections (less one leading gap and one small gap) minus that of the
      closed ones. A section is charged its header and its keyword line. */
  function NetChange(accountedJobs: set<nat>, accountedSections: set<nat>,
                     distinctJobs: set<nat>, distinctSections: set<nat>): int
  {
    var perSection := SPACE_INFO.sectionOverhead + SPACE_INFO.keywordReserve;
    var newOverhead := (SPACE_INFO.jobOverhead * |distinctJobs - accountedJobs| - GAP.height)
      + perSection * |distinctSections - accountedSections| - GAP_SMALL.height;
    var removedOverhead := SPACE_INFO.jobOverhead * |accountedJobs - distinctJobs|
      + perSection * |accountedSections - distinctSections|;
    newOverhead - removedOverhead
  }

  /** A round that opens and closes nothing still credits the two gaps:
      the capacity grows by 165 and the rounds go on. */
  lemma NetUnchanged(jobs: set<nat>, sections: set<nat>)
    ensures NetChange(jobs, sections, jobs, sections) == -165
  {
    assert jobs - jobs == {} && sections - sections == {};
  }

  /** Opening one more job than before, and nothing else, costs the job
      overhead less the two gaps. */
  lemma NetOneNewJob(jobs: set<nat>, sections: set<nat>, j: nat)
    requires j !in jobs
    ensures NetChange(jobs, sections, jobs + {j}, sections) == 897 - 165
  {
    assert (jobs + {j}) - jobs == {j};
    assert jobs - (jobs + {j}) == {};
    assert sections - sections == {};
  }

  // ---- the rounds ----

  datatype Stop =
    | NoChange    // the net overhead change was 0
    | Collapsed   // the charge drove the capacity to 0 or below
    | Settled     // the net overhead change was -1 or 1
    | Exhausted   // ten rounds ran

  /** The state `prunePoints` leaves the loop with, and how it got there:
      how many rounds ran, the capacity the last round solved for and that
      round's net overhead change. */
  datatype Outcome = Outcome(
    chosen: seq<bool>,
    accountedJobs: set<nat>,
    accountedSections: set<nat>,
    rounds: nat,
    lastCapacity: int,
    lastNet: int,
    stop: Stop)

  /** One round's choice with the distinct jobs and sections of the
      chosen points. */
  datatype Round = Round(chosen: seq<bool>, jobs: set<nat>, sections: set<nat>)

  /** A round as a function of the capacity it solves for. */
  type Rounds = int -> Result<Round>

  /** The net overhead change as a function of the accounted and the
      distinct jobs and sections. */
  type Charge = (set<nat>, set<nat>, set<nat>, set<nat>) -> int

  /** `iterate(curCapacity)` over the points' similarities and heights,
      then the loop collecting the chosen points' jobs and sections. */
  function RoundOf(targets: seq<ProcessedItem>, values: seq<real>, capacity: int): (r: Result<Round>)
    requires |values| == |targets|
    ensures r.Ok? ==> |r.value.chosen| == |targets|
  {
    match Pick(values, Heights(targets), capacity)
    case Err(f) => Err(f)
    case Ok(chosen) => Ok(Round(chosen, JobsOf(targets, chosen), SectionsOf(targets, chosen)))
  }

  /** The loop of `prunePoints` from round `iteration` on, with the
      current capacity and the accounted jobs and sections. Each round
      solves `round` for the capacity and is charged `charge` (NetChange in
      `prunePoints`); `itemCount` is the length of the all-false choice a
      collapse leaves. */
  function Run(round: Rounds, charge: Charge, itemCount: nat, iteration: nat, capacity: int,
               accountedJobs: set<nat>, accountedSections: set<nat>): Result<Outcome>
    requires iteration < MAX_ITERATIONS
    decreases MAX_ITERATIONS - iteration
  {
    match round(capacity)
    case Err(f) => Err(f)
    case Ok(Round(chosen, distinctJobs, distinctSections)) =>
      var net := charge(accountedJobs, accountedSections, distinctJobs, distinctSections);
      var rounds := iteration + 1;
      if net == 0 then
        Ok(Outcome(chosen, accountedJobs, accountedSections, rounds, capacity, net, NoChange))
      else if net > 0 && capacity - net <= 0 then
        Ok(Outcome(AllFalse(itemCount), accountedJobs, accountedSections, rounds, capacity, net, Collapsed))
      else if -1 <= net <= 1 then
        Ok(Outcome(chosen, distinctJobs, distinctSections, rounds, capacity, net, Settled))
      else if rounds == MAX_ITERATIONS then
        Ok(Outcome(chosen, distinctJobs, distinctSections, rounds, capacity, net, Exhausted))
      else
        Run(round, charge, itemCount, rounds, capacity - net, distinctJobs, distinctSections)
  }

  /** Each way the rounds can stop comes with the net change that caused
      it; on a collapse nothing is chosen. */
  predicate StopExplained(o: Outcome, itemCount: nat)
  {
    && (o.stop == NoChange ==> o.lastNet == 0)
    && (o.stop == Collapsed ==>
          o.lastNet > 0 && o.lastCapacity - o.lastNet <= 0 && o.chosen == AllFalse(itemCount))
    && (o.stop == Settled ==> o.lastNet == 1 || o.lastNet == -1)
    && (o.stop == Exhausted ==> o.rounds == MAX_ITERATIONS && (o.lastNet < -1 || o.lastNet > 1))
  }

  /** Unless the capacity collapsed, the final choice is the round's for
      the last capacity; when that round settled or was the tenth, the
      accounted jobs and sections are those of the choice. */
  predicate ChoiceExplained(round: Rounds, o: Outcome)
  {
    && (o.stop != Collapsed ==> round(o.lastCapacity).Ok? && round(o.lastCapacity).value.chosen == o.chosen)
    && (o.stop == Settled || o.stop == Exhausted ==>
          o.accountedJobs == round(o.lastCapacity).value.jobs
          && o.accountedSections == round(o.lastCapacity).value.sections)
  }

  /** How the rounds end: after at most ten of them, for a reason the last
      round's net change explains, and with the last round's choice unless
      the capacity collapsed. */
  lemma {:induction false} RunFacts(round: Rounds, charge: Charge, itemCount: nat, iteration: nat, capacity: int,
                                    accountedJobs: set<nat>, accountedSections: set<nat>)
    requires iteration < MAX_ITERATIONS
    ensures var r := Run(round, charge, itemCount, iteration, capacity, accountedJobs, accountedSections);
      r.Ok? ==>
        && iteration < r.value.rounds <= MAX_ITERATIONS
        && StopExplained(r.value, itemCount)
        && ChoiceExplained(round, r.value)
    decreases MAX_ITERATIONS - iteration
  {
    if round(capacity).Ok? {
      var Round(chosen, distinctJobs, distinctSections) := round(capacity).value;
      var net := charge(accountedJobs, accountedSections, distinctJobs, distinctSections);
      if net != 0 && !(net > 0 && capacity - net <= 0) && !(-1 <= net <= 1) && iteration + 1 < MAX_ITERATIONS {
        RunFacts(round, charge, itemCount, iteration + 1, capacity - net, distinctJobs, distinctSections);
      }
    }
  }

  /** The rounds ended with this choice and these accounted jobs and
      sections. */
  predicate EndsWith(r: Result<Outcome>, chosen: seq<bool>, accountedJobs: set<nat>, accountedSections: set<nat>)
  {
    r.Ok? && r.value.chosen == chosen
    && r.value.accountedJobs == accountedJobs && r.value.accountedSections == accountedSections
  }

  /** A round that stops the loop: on a zero net change or a collapse the
      accounted jobs and sections stay, otherwise they become the round's. */
  lemma RunEnds(round: Rounds, charge: Charge, itemCount: nat, iteration: nat, capacity: int,
                accountedJobs: set<nat>, accountedSections: set<nat>,
                chosen: seq<bool>, distinctJobs: set<nat>, distinctSections: set<nat>,
                finalChosen: seq<bool>, finalJobs: set<nat>, finalSections: set<nat>)
    requires iteration < MAX_ITERATIONS
    requires round(capacity) == Ok(Round(chosen, distinctJobs, distinctSections))
    requires var net := charge(accountedJobs, accountedSections, distinctJobs, distinctSections);
      || (net == 0 && finalChosen == chosen && finalJobs == accountedJobs && finalSections == accountedSections)
      || (net > 0 && capacity - net <= 0
          && finalChosen == AllFalse(itemCount) && finalJobs == accountedJobs && finalSections == accountedSections)
      || (net != 0 && !(net > 0 && capacity - net <= 0) && (-1 <= net <= 1 || iteration + 1 == MAX_ITERATIONS)
          && finalChosen == chosen && finalJobs == distinctJobs && finalSections == distinctSections)
    ensures EndsWith(Run(round, charge, itemCount, iteration, capacity, accountedJobs, accountedSections),
                     finalChosen, finalJobs, finalSections)
  {
  }

  /** A failing round fails the loop. */
  lemma RunFails(round: Rounds, charge: Charge, itemCount: nat, iteration: nat, capacity: int,
                 accountedJobs: set<nat>, accountedSections: set<nat>)
    requires iteration < MAX_ITERATIONS && round(capacity).Err?
    ensures Run(round, charge, itemCount, iteration, capacity, accountedJobs, accountedSections) == Err(round(capacity).fault)
  {
  }

  lemma RunContinues(round: Rounds, charge: Charge, itemCount: nat, iteration: nat, capacity: int,
                     accountedJobs: set<nat>, accountedSections: set<nat>,
                     chosen: seq<bool>, distinctJobs: set<nat>, distinctSections: set<nat>,
                     nextIteration: nat, nextCapacity: int)
    requires nextIteration == iteration + 1 < MAX_ITERATIONS
    requires round(capacity) == Ok(Round(chosen, distinctJobs, distinctSections))
    requires var net := charge(accountedJobs, accountedSections, distinctJobs, distinctSections);
      net != 0 && !(net > 0 && capacity - net <= 0) && !(-1 <= net <= 1) && nextCapacity == capacity - net
    ensures Run(round, charge, itemCount, iteration, capacity, accountedJobs, accountedSections)
      == Run(round, charge, itemCount, nextIteration, nextCapacity, distinctJobs, distinctSections)
  {
  }

  // ---- the result ----

  /** The chosen positions, in increasing order. */
  function ChosenPositions(chosen: seq<bool>): seq<nat>
    decreases |chosen|
  {
    if |chosen| == 0 then []
    else ChosenPositions(chosen[..|chosen| - 1]) + (if chosen[|chosen| - 1] then [|chosen| - 1] else [])
  }

  /** `[targets[i] for i, picked in enumerate(chosen) if picked]`. */
  function Keep(targets: seq<ProcessedItem>, chosen: seq<bool>): seq<ProcessedItem>
    requires forall i :: 0 <= i < |chosen| && chosen[i] ==> i < |targets|
    decreases |chosen|
  {
    if |chosen| == 0 then []
    else
      var last := if chosen[|chosen| - 1] then [targets[|chosen| - 1]] else [];
      Keep(targets, chosen[..|chosen| - 1]) + last
  }

  /** `sum(k.lineHeight for k in keepers)`. */
  function KeepersHeight(items: seq<ProcessedItem>): nat
    decreases |items|
  {
    if |items| == 0 then 0 else KeepersHeight(items[..|items| - 1]) + items[|items| - 1].lineHeight
  }

  /** The keepers are the targets at the chosen positions, in increasing
      position order. */
  lemma {:induction false} KeepPositions(targets: seq<ProcessedItem>, chosen: seq<bool>)
    requires |chosen| <= |targets|
    ensures var keep, pos := Keep(targets, chosen), ChosenPositions(chosen);
      && |keep| == |pos|
      && (forall j :: 0 <= j < |pos| ==> pos[j] < |chosen| && chosen[pos[j]] && keep[j] == targets[pos[j]])
      && (forall j, k :: 0 <= j < k < |pos| ==> pos[j] < pos[k])
      && (forall i :: 0 <= i < |chosen| && chosen[i] ==> i in pos)
    decreases |chosen|
  {
    var n := |chosen|;
    if n > 0 {
      var c := chosen[..n - 1];
      KeepPositions(targets, c);
      forall i | 0 <= i < n - 1 ensures c[i] == chosen[i] { }
    }
  }

  /** The keepers' heights sum to the weight of the choice. */
  lemma {:induction false} KeepHeight(targets: seq<ProcessedItem>, chosen: seq<bool>)
    requires |chosen| <= |targets|
    ensures KeepersHeight(Keep(targets, chosen)) == Weight(Heights(targets), chosen)
    decreases |chosen|
  {
    var n := |chosen|;
    if n > 0 {
      var c := chosen[..n - 1];
      KeepHeight(targets, c);
      assert Weight(Heights(targets), chosen) == Weight(Heights(targets), c)
        + (if chosen[n - 1] then targets[n - 1].lineHeight else 0);
      if chosen[n - 1] {
        assert Keep(targets, chosen) == Keep(targets, c) + [targets[n - 1]];
        KeepersHeightSnoc(Keep(targets, c), targets[n - 1]);
      } else {
        assert Keep(targets, chosen) == Keep(targets, c) + [];
        assert Keep(targets, c) + [] == Keep(targets, c);
      }
    }
  }

  lemma KeepersHeightSnoc(items: seq<ProcessedItem>, x: ProcessedItem)
    ensures KeepersHeight(items + [x]) == KeepersHeight(items) + x.lineHeight
  {
    assert (items + [x])[..|items|] == items;
  }

  /** Nothing chosen, nothing kept. */
  lemma {:induction false} KeepNone(targets: seq<ProcessedItem>, n: nat)
    ensures Keep(targets, AllFalse(n)) == []
  {
    if n > 0 {
      assert AllFalse(n)[..n - 1] == AllFalse(n - 1);
      KeepNone(targets, n - 1);
    }
  }

  /** What `prunePoints` returns: the kept points, the space they use with
      their jobs' and sections' overhead (the sections' keyword reserve
      taken back out), and the accounted jobs and sections. */
  datatype Selection = Selection(
    keepers: seq<ProcessedItem>,
    usedSpace: int,
    accountedJobs: set<nat>,
    accountedSections: set<nat>)

  function UsedSpace(keepers: seq<ProcessedItem>, accountedJobs: set<nat>, accountedSections: set<nat>): int
  {
    KeepersHeight(keepers)
      + SPACE_INFO.jobOverhead * |accountedJobs| + SPACE_INFO.sectionOverhead * |accountedSections|
      - |accountedSections| * SPACE_INFO.keywordReserve
  }

  /** Every target is located when every point is. */
  lemma LocatedTargets(items: seq<ProcessedItem>, similarities: seq<real>)
    requires PointsLocated(items, similarities)
    ensures forall k :: 0 <= k < |Targets(items)| ==> Located(Targets(items)[k], similarities)
  {
    var targets := Targets(items);
    TargetsFacts(items);
    forall k | 0 <= k < |targets| ensures Located(targets[k], similarities) {
      assert targets[k] in targets;
    }
  }

  /** The similarities of the points, `targetValues`. */
  function PointValues(items: seq<ProcessedItem>, similarities: seq<real>): (values: seq<real>)
    requires PointsLocated(items, similarities)
    ensures |values| == |Targets(items)|
  {
    LocatedTargets(items, similarities);
    Similarities(Targets(items), similarities)
  }

  /** The rounds `prunePoints` runs over the points of `items`. */
  function PointRounds(items: seq<ProcessedItem>, similarities: seq<real>): Rounds
    requires PointsLocated(items, similarities)
  {
    var targets, values := Targets(items), PointValues(items, similarities);
    c => RoundOf(targets, values, c)
  }

  /** What the rounds over the points of `items` end with. */
  function PointOutcome(items: seq<ProcessedItem>, similarities: seq<real>, heightRemaining: int): Result<Outcome>
    requires PointsLocated(items, similarities)
  {
    Run(PointRounds(items, similarities), NetChange, |items|, 0, heightRemaining, {}, {})
  }

  /** The final choice of the rounds only picks targets. */
  lemma OutcomeInRange(items: seq<ProcessedItem>, similarities: seq<real>, heightRemaining: int)
    requires PointsLocated(items, similarities)
    ensures var r := PointOutcome(items, similarities, heightRemaining);
      r.Ok? ==> forall i :: 0 <= i < |r.value.chosen| && r.value.chosen[i] ==> i < |Targets(items)|
  {
    var round := PointRounds(items, similarities);
    RunFacts(round, NetChange, |items|, 0, heightRemaining, {}, {});
    var r := PointOutcome(items, similarities, heightRemaining);
    if r.Ok? && r.value.stop != Collapsed {
      assert round(r.value.lastCapacity) == RoundOf(Targets(items), PointValues(items, similarities), r.value.lastCapacity);
    }
  }

  /** `prunePoints(items, similarities, heightRemaining)` as a function of
      its inputs. */
  function PointSelection(items: seq<ProcessedItem>, similarities: seq<real>, heightRemaining: int): Result<Selection>
    requires PointsLocated(items, similarities)
  {
    OutcomeInRange(items, similarities, heightRemaining);
    match PointOutcome(items, similarities, heightRemaining)
    case Err(f) => Err(f)
    case Ok(o) =>
      var keepers := Keep(Targets(items), o.chosen);
      Ok(Selection(keepers, UsedSpace(keepers, o.accountedJobs, o.accountedSections),
                   o.accountedJobs, o.accountedSections))
  }

  /** Every round solves for the points' similarities and heights. */
  ghost predicate RoundsOver(round: Rounds, targets: seq<ProcessedItem>, values: seq<real>)
    requires |values| == |targets|
  {
    forall c :: round(c) == RoundOf(targets, values, c)
  }

  /** The body of the rounds loop up to the charge: `iterate`, then the
      jobs and sections of the chosen points. */
  method PlayRound(targets: seq<ProcessedItem>, values: seq<real>, ghost round: Rounds, capacity: int)
    returns (played: Result<Round>)
    requires |values| == |targets| && RoundsOver(round, targets, values)
    ensures played == round(capacity)
    ensures played.Ok? ==> |played.value.chosen| == |targets|
  {
    var picked := Iterate(values, Heights(targets), capacity);
    if picked.Err? {
      return Err(picked.fault);
    }
    var chosen := picked.value;
    var distinctJobs, distinctSections := DistinctOf(targets, chosen);
    played := Ok(Round(chosen, distinctJobs, distinctSections));
    assert played == RoundOf(targets, values, capacity);
  }

  /** The rounds loop of `prunePoints`, leaving it on a zero net change, on
      a collapse, on a net change of at most 1 either way, or after ten
      rounds; returns the final choice and the accounted jobs and
      sections. */
  method PlayRounds(targets: seq<ProcessedItem>, values: seq<real>, ghost round: Rounds,
                    itemCount: nat, heightRemaining: int)
    returns (r: Result<(seq<bool>, set<nat>, set<nat>)>)
    requires |values| == |targets| && RoundsOver(round, targets, values)
    ensures var outcome := Run(round, NetChange, itemCount, 0, heightRemaining, {}, {});
      && (r.Err? ==> outcome == Err(r.fault))
      && (r.Ok? ==> EndsWith(outcome, r.value.0, r.value.1, r.value.2))
  {
    ghost var outcome := Run(round, NetChange, itemCount, 0, heightRemaining, {}, {});
    var chosen: seq<bool> := [];
    var accountedJobs: set<nat>, accountedSections: set<nat> := {}, {};
    var curCapacity := heightRemaining;
    var iteration := 0;
    while iteration < MAX_ITERATIONS
      invariant 0 <= iteration <= MAX_ITERATIONS
      invariant iteration < MAX_ITERATIONS ==>
        outcome == Run(round, NetChange, itemCount, iteration, curCapacity, accountedJobs, accountedSections)
      invariant iteration == MAX_ITERATIONS ==> EndsWith(outcome, chosen, accountedJobs, accountedSections)
    {
      ghost var iteration0, capacity0, jobs0, sections0 := iteration, curCapacity, accountedJobs, accountedSections;
      iteration := iteration + 1;
      var played := PlayRound(targets, values, round, curCapacity);
      if played.Err? {
        RunFails(round, NetChange, itemCount, iteration0, capacity0, jobs0, sections0);
        return Err(played.fault);
      }
      var distinctJobs, distinctSections;
      chosen, distinctJobs, distinctSections := played.value.chosen, played.value.jobs, played.value.sections;
      ghost var picked := chosen;
      var net := NetChange(accountedJobs, accountedSections, distinctJobs, distinctSections);
      if net == 0 {
        RunEnds(round, NetChange, itemCount, iteration0, capacity0, jobs0, sections0,
                picked, distinctJobs, distinctSections, chosen, accountedJobs, accountedSections);
        break;
      } else if net > 0 {
        curCapacity := curCapacity - net;
        if curCapacity <= 0 {
          chosen := AllFalse(itemCount);
          RunEnds(round, NetChange, itemCount, iteration0, capacity0, jobs0, sections0,
                  picked, distinctJobs, distinctSections, chosen, accountedJobs, accountedSections);
          break;
        }
      } else {
        curCapacity := curCapacity - net;
      }
      accountedJobs := distinctJobs;
      accountedSections := distinctSections;
      if -1 <= net <= 1 || iteration == MAX_ITERATIONS {
        RunEnds(round, NetChange, itemCount, iteration0, capacity0, jobs0, sections0,
                picked, distinctJobs, distinctSections, chosen, accountedJobs, accountedSections);
      } else {
        RunContinues(round, NetChange, itemCount, iteration0, capacity0, jobs0, sections0,
                     chosen, distinctJobs, distinctSections, iteration, curCapacity);
      }
      if -1 <= net <= 1 {
        break;
      }
    }
    r := Ok((chosen, accountedJobs, accountedSections));
  }

  /** `prunePoints`: the rounds over the points, then the points the last
      choice keeps and the space they use. */
  method PrunePoints(items: seq<ProcessedItem>, similarities: seq<real>, heightRemaining: int)
    returns (r: Result<Selection>)
    requires PointsLocated(items, similarities)
    ensures r == PointSelection(items, similarities, heightRemaining)
  {
    var targets := Targets(items);
    var values := PointValues(items, similarities);
    ghost var round := PointRounds(items, similarities);
    var played := PlayRounds(targets, values, round, |items|, heightRemaining);
    if played.Err? {
      return Err(played.fault);
    }
    var (chosen, accountedJobs, accountedSections) := played.value;
    OutcomeInRange(items, similarities, heightRemaining);
    var keepers := Keep(targets, chosen);
    r := Ok(Selection(keepers, UsedSpace(keepers, accountedJobs, accountedSections), accountedJobs, accountedSections));
  }

  // ---- what the selection promises ----

  /** Unless the capacity collapsed, the final choice is the one a round
      makes for the last capacity, and when the rounds settled or ran out
      the accounted jobs and sections are that choice's. */
  lemma OutcomeChoice(items: seq<ProcessedItem>, similarities: seq<real>, heightRemaining: int)
    requires PointsLocated(items, similarities)
    ensures var r := PointOutcome(items, similarities, heightRemaining);
      var targets, values := Targets(items), PointValues(items, similarities);
      r.Ok? ==>
        && r.value.rounds <= MAX_ITERATIONS
        && (r.value.stop == Collapsed ==> r.value.chosen == AllFalse(|items|))
        && (r.value.stop != Collapsed ==>
              Pick(values, Heights(targets), r.value.lastCapacity) == Ok(r.value.chosen))
        && (r.value.stop == Settled || r.value.stop == Exhausted ==>
              r.value.accountedJobs == JobsOf(targets, r.value.chosen)
              && r.value.accountedSections == SectionsOf(targets, r.value.chosen))
  {
    var round := PointRounds(items, similarities);
    RunFacts(round, NetChange, |items|, 0, heightRemaining, {}, {});
    var r := PointOutcome(items, similarities, heightRemaining);
    if r.Ok? && r.value.stop != Collapsed {
      assert round(r.value.lastCapacity) == RoundOf(Targets(items), PointValues(items, similarities), r.value.lastCapacity);
    }
  }

  /** The keepers are the targets at the chosen positions, in target
      order, so each is a POINT item of the input. */
  lemma SelectionKeepers(items: seq<ProcessedItem>, similarities: seq<real>, heightRemaining: int)
    requires PointsLocated(items, similarities)
    ensures var r := PointSelection(items, similarities, heightRemaining);
      r.Ok? ==>
        && (forall x :: x in r.value.keepers ==> x in items && x.itemType == POINT)
        && exists positions: seq<nat> :: InTargetOrder(r.value.keepers, Targets(items), positions)
  {
    var r := PointSelection(items, similarities, heightRemaining);
    var o := PointOutcome(items, similarities, heightRemaining);
    if r.Ok? {
      SelectionParts(items, similarities, heightRemaining);
      OutcomeChoice(items, similarities, heightRemaining);
      var targets := Targets(items);
      var chosen := o.value.chosen;
      var keepers := r.value.keepers;
      assert keepers == Keep(targets, chosen);
      if o.value.stop == Collapsed {
        KeepNone(targets, |items|);
        assert InTargetOrder(keepers, targets, []);
      } else {
        KeepPositions(targets, chosen);
        assert InTargetOrder(keepers, targets, ChosenPositions(chosen));
      }
      TargetsFacts(items);
      forall x | x in keepers ensures x in items && x.itemType == POINT {
        var j :| 0 <= j < |keepers| && keepers[j] == x;
        assert x in targets;
      }
    }
  }

  /** keepers[j] is targets[positions[j]], with the positions increasing. */
  predicate InTargetOrder(keepers: seq<ProcessedItem>, targets: seq<ProcessedItem>, positions: seq<nat>)
  {
    && |positions| == |keepers|
    && (forall j :: 0 <= j < |positions| ==> positions[j] < |targets| && keepers[j] == targets[positions[j]])
    && (forall j, k :: 0 <= j < k < |positions| ==> positions[j] < positions[k])
  }

  /** A collapse keeps nothing; otherwise the keepers' heights sum to at
      most what the last round had to fill. */
  lemma SelectionFits(items: seq<ProcessedItem>, similarities: seq<real>, heightRemaining: int)
    requires PointsLocated(items, similarities)
    ensures var r := PointSelection(items, similarities, heightRemaining);
      var o := PointOutcome(items, similarities, heightRemaining);
      r.Ok? ==>
        && o.Ok?
        && (o.value.stop == Collapsed ==> r.value.keepers == [])
        && (o.value.stop != Collapsed ==> KeepersHeight(r.value.keepers) <= Floor0(o.value.lastCapacity))
  {
    var r := PointSelection(items, similarities, heightRemaining);
    var o := PointOutcome(items, similarities, heightRemaining);
    if r.Ok? {
      SelectionParts(items, similarities, heightRemaining);
      OutcomeChoice(items, similarities, heightRemaining);
      var targets := Targets(items);
      if o.value.stop == Collapsed {
        KeepNone(targets, |items|);
      } else {
        var values := PointValues(items, similarities);
        PickFits(values, Heights(targets), o.value.lastCapacity);
        KeepHeight(targets, o.value.chosen);
      }
    }
  }

  /** The jobs and the sections of a list of points. */
  function JobsIn(items: seq<ProcessedItem>): set<nat>
    decreases |items|
  {
    if |items| == 0 then {} else JobsIn(items[..|items| - 1]) + {JobOf(items[|items| - 1].metadata)}
  }

  function SectionsIn(items: seq<ProcessedItem>): set<nat>
    decreases |items|
  {
    if |items| == 0 then {} else SectionsIn(items[..|items| - 1]) + {SectionOf(items[|items| - 1].metadata)}
  }

  lemma InSnoc(items: seq<ProcessedItem>, x: ProcessedItem)
    ensures JobsIn(items + [x]) == JobsIn(items) + {JobOf(x.metadata)}
    ensures SectionsIn(items + [x]) == SectionsIn(items) + {SectionOf(x.metadata)}
  {
    assert (items + [x])[..|items|] == items;
  }

  /** The jobs and sections of a choice are those of the points it keeps. */
  lemma {:induction false} JobsOfKeep(targets: seq<ProcessedItem>, chosen: seq<bool>)
    requires |chosen| <= |targets|
    ensures JobsOf(targets, chosen) == JobsIn(Keep(targets, chosen))
    ensures SectionsOf(targets, chosen) == SectionsIn(Keep(targets, chosen))
    decreases |chosen|
  {
    var n := |chosen|;
    if n > 0 {
      var c := chosen[..n - 1];
      JobsOfKeep(targets, c);
      if chosen[n - 1] {
        assert Keep(targets, chosen) == Keep(targets, c) + [targets[n - 1]];
        InSnoc(Keep(targets, c), targets[n - 1]);
      } else {
        assert Keep(targets, chosen) == Keep(targets, c) + [];
        assert Keep(targets, c) + [] == Keep(targets, c);
      }
    }
  }

  /** The selection keeps the chosen targets and the outcome's accounts. */
  lemma SelectionParts(items: seq<ProcessedItem>, similarities: seq<real>, heightRemaining: int)
    requires PointsLocated(items, similarities)
    ensures var o := PointOutcome(items, similarities, heightRemaining);
      o.Ok? ==> forall i :: 0 <= i < |o.value.chosen| && o.value.chosen[i] ==> i < |Targets(items)|
    ensures var r := PointSelection(items, similarities, heightRemaining);
      match PointOutcome(items, similarities, heightRemaining)
      case Err(f) => r == Err(f)
      case Ok(o) =>
        && r.Ok?
        && r.value.keepers == Keep(Targets(items), o.chosen)
        && r.value.accountedJobs == o.accountedJobs
        && r.value.accountedSections == o.accountedSections
  {
    OutcomeInRange(items, similarities, heightRemaining);
  }

  /** When the rounds settle or run out, the accounted jobs and sections
      are exactly those of the kept points, so the used space charges each
      open job and section once. */
  lemma SelectionAccounts(items: seq<ProcessedItem>, similarities: seq<real>, heightRemaining: int)
    requires PointsLocated(items, similarities)
    ensures var r := PointSelection(items, similarities, heightRemaining);
      var o := PointOutcome(items, similarities, heightRemaining);
      r.Ok? && (o.value.stop == Settled || o.value.stop == Exhausted) ==>
        && r.value.accountedJobs == JobsIn(r.value.keepers)
        && r.value.accountedSections == SectionsIn(r.value.keepers)
  {
    var r := PointSelection(items, similarities, heightRemaining);
    var o := PointOutcome(items, similarities, heightRemaining);
    if r.Ok? && (o.value.stop == Settled || o.value.stop == Exhausted) {
      SelectionParts(items, similarities, heightRemaining);
      OutcomeChoice(items, similarities, heightRemaining);
      var targets, chosen := Targets(items), o.value.chosen;
      JobsOfKeep(targets, chosen);
      assert r.value.keepers == Keep(targets, chosen);
      assert r.value.accountedJobs == JobsOf(targets, chosen);
      assert r.value.accountedSections == SectionsOf(targets, chosen);
    }
  }

  /** With no points a round fails on `targetWeights[0]` as soon as the
      capacity is positive; until then each round chooses nothing and the
      two gaps it takes back raise the capacity by 165. */
  lemma {:induction false} NoPointsRun(round: Rounds, charge: Charge, itemCount: nat, iteration: nat, capacity: int)
    requires iteration < MAX_ITERATIONS
    requires forall c :: c <= 0 ==> round(c) == Ok(Round([], {}, {}))
    requires forall c :: c > 0 ==> round(c) == Err(IndexError)
    requires charge({}, {}, {}, {}) == -165
    requires capacity + 165 * (MAX_ITERATIONS - 1 - iteration) > 0
    ensures Run(round, charge, itemCount, iteration, capacity, {}, {}) == Err(IndexError)
    decreases MAX_ITERATIONS - iteration
  {
    if capacity <= 0 {
      assert round(capacity) == Ok(Round([], {}, {}));
      RunContinues(round, charge, itemCount, iteration, capacity, {}, {}, [], {}, {}, iteration + 1, capacity + 165);
      NoPointsRun(round, charge, itemCount, iteration + 1, capacity + 165);
    } else {
      assert round(capacity) == Err(IndexError);
      RunFails(round, charge, itemCount, iteration, capacity, {}, {});
    }
  }

  /** `prunePoints` over items without a single point raises IndexError
      unless the height it is given is below -1485 (nine raises of 165 do
      not make it positive). */
  lemma NoPointsFails(items: seq<ProcessedItem>, similarities: seq<real>, heightRemaining: int)
    requires PointsLocated(items, similarities)
    requires forall i :: 0 <= i < |items| ==> items[i].itemType != POINT
    requires heightRemaining > -1485
    ensures PointSelection(items, similarities, heightRemaining) == Err(IndexError)
  {
    var targets := Targets(items);
    TargetsFacts(items);
    var round := PointRounds(items, similarities);
    forall c ensures round(c) == RoundOf(targets, PointValues(items, similarities), c) {
    }
    forall c | c <= 0 ensures round(c) == Ok(Round([], {}, {})) {
      assert Pick(PointValues(items, similarities), Heights(targets), c) == Ok([]);
      assert JobsOf(targets, []) == {} && SectionsOf(targets, []) == {};
    }
    forall c | c > 0 ensures round(c) == Err(IndexError) {
    }
    NetUnchanged({}, {});
    NoPointsRun(round, NetChange, |items|, 0, heightRemaining);
  }
}
