/** The width-budgeted pruners and the required-content budget of
    src/ranker.py: `combine`, `pruneKeywords`, `pruneSkills`,
    `generateRequiredLines` and `getRequiredLineWeights`. */
module Pruners {
  import opened Wrappers
  import opened Text
  import opened Core
  import opened Knapsack
  import opened Resume
  import opened Catalog
  import opened Selector

  /** The separator the pruners and the education lines join with. */
  const SEPARATOR: string := ", "
  /** The text that opens a keywords line. */
  const KEYWORDS_HEADER: string := "Technologies Used: "

  // ---- combine ----

  /** Every text followed by the separator: what `combine`'s loop has built
      after the texts it has passed. */
  function Terminated(texts: seq<string>, sep: string): string
    decreases |texts|
  {
    if |texts| == 0 then "" else Terminated(texts[..|texts| - 1], sep) + texts[|texts| - 1] + sep
  }

  /** Terminating the leading texts and appending the last one is joining
      them all. */
  lemma {:induction false} TerminatedJoin(texts: seq<string>, last: string, sep: string)
    ensures Terminated(texts, sep) + last == Join(texts + [last], sep)
    decreases |texts|
  {
    if |texts| > 0 {
      var n := |texts|;
      var init := texts[..n - 1];
      TerminatedJoin(init, texts[n - 1], sep);
      assert init + [texts[n - 1]] == texts;
      JoinSnoc(texts, last, sep);
    } else {
      assert texts + [last] == [last];
    }
  }

  /** `combine` in src/ranker.py: appends each text but the last with the
      separator after it, then the last text; `texts[-1]` raises on an empty
      list. */
  method Combine(texts: seq<string>, sep: string) returns (line: Result<string>)
    ensures |texts| == 0 ==> line == Err(IndexError)
    ensures |texts| > 0 ==> line == Ok(Join(texts, sep))
  {
    var s := "";
    var i := 0;
    while i + 1 < |texts|
      invariant 0 <= i <= |texts|
      invariant |texts| > 0 ==> i < |texts|
      invariant s == Terminated(texts[..i], sep)
    {
      s := s + texts[i];
      s := s + sep;
      assert texts[..i + 1][..i] == texts[..i];
      i := i + 1;
    }
    if |texts| == 0 {
      return Err(IndexError);
    }
    var n := |texts|;
    s := s + texts[n - 1];
    TerminatedJoin(texts[..n - 1], texts[n - 1], sep);
    assert texts[..n - 1] + [texts[n - 1]] == texts;
    line := Ok(s);
  }

  // ---- one knapsack line ----

  /** Every item of the group has a similarity. */
  predicate Scored(group: seq<ProcessedItem>, similarities: seq<real>)
  {
    forall x :: x in group ==> x.index < |similarities|
  }

  /** `[similarities[x.index] for x in group]`. */
  function Scores(group: seq<ProcessedItem>, similarities: seq<real>): (values: seq<real>)
    requires Scored(group, similarities)
    ensures |values| == |group|
  {
    seq(|group|, k requires 0 <= k < |group| && Scored(group, similarities) => similarities[group[k].index])
  }

  /** `[x.lineWidth for x in group]`. */
  function Widths(group: seq<ProcessedItem>): (weights: seq<nat>)
    ensures |weights| == |group|
  {
    seq(|group|, k requires 0 <= k < |group| => group[k].lineWidth)
  }

  /** The knapsack's choice over a group, by similarity and width. */
  function Picked(group: seq<ProcessedItem>, similarities: seq<real>, capacity: nat): (mask: seq<bool>)
    requires Scored(group, similarities)
    ensures |mask| == |group|
  {
    Choose(Scores(group, similarities), Widths(group), |group|, capacity)
  }

  /** One width-budgeted line: the items the knapsack keeps within
      `capacity` and the height of their `", "`-joined text at the regular
      size; `combine` raises when nothing is kept. */
  function PackLine(font: FontMetrics, group: seq<ProcessedItem>, similarities: seq<real>, capacity: nat)
    : Result<(seq<ProcessedItem>, nat)>
    requires Scored(group, similarities)
  {
    var kept := Keep(group, Picked(group, similarities, capacity));
    if |kept| == 0 then Err(IndexError)
    else Ok((kept, Height(font, Join(Texts(kept), SEPARATOR), REGULAR)))
  }

  /** `sum(x.lineWidth for x in items)`. */
  function TotalWidth(items: seq<ProcessedItem>): nat
    decreases |items|
  {
    if |items| == 0 then 0 else TotalWidth(items[..|items| - 1]) + items[|items| - 1].lineWidth
  }

  /** The summed similarity of the items. */
  function TotalScore(items: seq<ProcessedItem>, similarities: seq<real>): real
    requires Scored(items, similarities)
    decreases |items|
  {
    if |items| == 0 then 0.0
    else
      var init := items[..|items| - 1];
      assert Scored(init, similarities) by {
        forall x | x in init ensures x in items { }
      }
      TotalScore(init, similarities) + similarities[items[|items| - 1].index]
  }

  /** Keeping the chosen items of a group keeps the chosen widths and
      scores. */
  lemma {:induction false} KeepSums(group: seq<ProcessedItem>, similarities: seq<real>, chosen: seq<bool>)
    requires Scored(group, similarities) && |chosen| <= |group|
    ensures Scored(Keep(group, chosen), similarities)
    ensures TotalWidth(Keep(group, chosen)) == Weight(Widths(group), chosen)
    ensures TotalScore(Keep(group, chosen), similarities) == Value(Scores(group, similarities), chosen)
    decreases |chosen|
  {
    KeepWithin(group, chosen);
    var n := |chosen|;
    if n > 0 {
      var c := chosen[..n - 1];
      KeepSums(group, similarities, c);
      var rest := Keep(group, c);
      assert Weight(Widths(group), chosen) == Weight(Widths(group), c)
        + (if chosen[n - 1] then group[n - 1].lineWidth else 0);
      assert Value(Scores(group, similarities), chosen) == Value(Scores(group, similarities), c)
        + (if chosen[n - 1] then similarities[group[n - 1].index] else 0.0);
      if chosen[n - 1] {
        assert Keep(group, chosen) == rest + [group[n - 1]];
        assert (rest + [group[n - 1]])[..|rest|] == rest;
      } else {
        assert Keep(group, chosen) == rest + [];
        assert rest + [] == rest;
      }
    }
  }

  /** Every kept item is an item of the group. */
  lemma {:induction false} KeepWithin(group: seq<ProcessedItem>, chosen: seq<bool>)
    requires |chosen| <= |group|
    ensures forall x :: x in Keep(group, chosen) ==> x in group
    decreases |chosen|
  {
    var n := |chosen|;
    if n > 0 {
      KeepWithin(group, chosen[..n - 1]);
    }
  }

  /** A packed line keeps items of the group whose widths fit the
      capacity, and fails exactly when the knapsack keeps nothing. */
  lemma PackLineFits(font: FontMetrics, group: seq<ProcessedItem>, similarities: seq<real>, capacity: nat)
    requires Scored(group, similarities)
    ensures var r := PackLine(font, group, similarities, capacity);
      && (r.Err? <==> forall i :: 0 <= i < |group| ==> !Picked(group, similarities, capacity)[i])
      && (r.Err? ==> r.fault == IndexError)
      && (r.Ok? ==>
            && |r.value.0| > 0
            && (forall x :: x in r.value.0 ==> x in group)
            && TotalWidth(r.value.0) <= capacity)
  {
    var chosen := Picked(group, similarities, capacity);
    var kept := Keep(group, chosen);
    KeepSums(group, similarities, chosen);
    ChooseFits(Scores(group, similarities), Widths(group), |group|, capacity);
    KeepPositions(group, chosen);
    if |kept| == 0 {
      forall i | 0 <= i < |group| ensures !chosen[i] {
      }
    } else {
      var p := ChosenPositions(chosen)[0];
      assert chosen[p];
    }
  }

  /** With positive widths no other choice of the group that fits the
      capacity has a larger summed similarity than the packed line. */
  lemma PackLineBest(font: FontMetrics, group: seq<ProcessedItem>, similarities: seq<real>, capacity: nat,
                     mask: seq<bool>)
    requires Scored(group, similarities)
    requires forall x :: x in group ==> x.lineWidth > 0
    requires |mask| == |group| && Weight(Widths(group), mask) <= capacity
    ensures var r := PackLine(font, group, similarities, capacity);
      r.Ok? ==>
        && Scored(r.value.0, similarities)
        && Value(Scores(group, similarities), mask) <= TotalScore(r.value.0, similarities)
  {
    var values, weights := Scores(group, similarities), Widths(group);
    var chosen := Picked(group, similarities, capacity);
    KeepSums(group, similarities, chosen);
    ChooseValue(values, weights, |group|, capacity);
    forall k | 0 <= k < |weights| ensures weights[k] > 0 {
      assert group[k] in group;
    }
    BestIsOptimal(values, weights, |group|, capacity, mask);
  }

  /** The body of a pruner's line: the knapsack over the group, the loop
      that collects the picked items and their texts, `combine` and the
      height of the joined text. */
  method Pack(font: FontMetrics, group: seq<ProcessedItem>, similarities: seq<real>, capacity: nat)
    returns (line: Result<(seq<ProcessedItem>, nat)>)
    requires Scored(group, similarities)
    ensures line == PackLine(font, group, similarities, capacity)
  {
    var values := Scores(group, similarities);
    var weights := Widths(group);
    var solved := Solve(values, weights, capacity);
    var chosen := solved.value;
    assert chosen == Picked(group, similarities, capacity);
    var keepers: seq<ProcessedItem> := [];
    var keepersText: seq<string> := [];
    var i := 0;
    while i < |chosen|
      invariant 0 <= i <= |chosen|
      invariant keepers == Keep(group, chosen[..i])
      invariant keepersText == Texts(keepers)
    {
      assert chosen[..i + 1][..i] == chosen[..i];
      if chosen[i] {
        TextsSnoc(keepers, group[i]);
        keepers := keepers + [group[i]];
        keepersText := keepersText + [group[i].text];
      } else {
        assert keepers + [] == keepers;
      }
      i := i + 1;
    }
    assert chosen[..i] == chosen;
    var combined := Combine(keepersText, SEPARATOR);
    match combined
    case Err(f) =>
      line := Err(f);
    case Ok(text) =>
      line := Ok((keepers, Height(font, text, REGULAR)));
  }

  // ---- pruneKeywords ----

  /** What `pruneKeywords` reads of a keyword: `metadata['sectionIndex']`
      and `similarities[k.index]`. */
  predicate KeywordsLocated(items: seq<ProcessedItem>, similarities: seq<real>)
  {
    forall i :: 0 <= i < |items| && items[i].itemType == KEYWORD ==> Located(items[i], similarities)
  }

  /** `[k for k in keywords if k.metadata['sectionIndex'] == sectionIdx]`. */
  function InSection(keywords: seq<ProcessedItem>, section: nat): (r: seq<ProcessedItem>)
    ensures forall x :: x in r <==> x in keywords && SectionOf(x.metadata) == section
    decreases |keywords|
  {
    if |keywords| == 0 then []
    else
      var n := |keywords| - 1;
      assert keywords == keywords[..n] + [keywords[n]];
      InSection(keywords[..n], section) + (if SectionOf(keywords[n].metadata) == section then [keywords[n]] else [])
  }

  /** The width a section's keywords may take: one page-wide line less the
      header, less one separator between each two keywords of the whole
      document. */
  function KeywordCapacity(font: FontMetrics, keywordCount: nat): int
  {
    MAX_WIDTH * SPACE_INFO.keywordLinesPerSection - Width(font, KEYWORDS_HEADER, REGULAR)
      - (keywordCount - 1) * Width(font, SEPARATOR, REGULAR)
  }

  /** The line of a section, by its index. */
  type SectionLine = nat -> Result<(seq<ProcessedItem>, nat)>

  /** The sections' lines in the order the set of sections is iterated:
      the kept keywords one section after the other and the summed line
      heights; the first section whose line fails ends the passes. */
  function SectionLines(line: SectionLine, order: seq<nat>): Result<(seq<ProcessedItem>, nat)>
    decreases |order|
  {
    if |order| == 0 then Ok(([], 0))
    else
      match SectionLines(line, order[..|order| - 1])
      case Err(f) => Err(f)
      case Ok(done) =>
        match line(order[|order| - 1])
        case Err(f) => Err(f)
        case Ok(next) => Ok((done.0 + next.0, done.1 + next.1))
  }

  /** One more section whose line succeeds adds that line. */
  lemma SectionLinesSnoc(line: SectionLine, order: seq<nat>, i: nat,
                         done: (seq<ProcessedItem>, nat), next: (seq<ProcessedItem>, nat))
    requires i < |order|
    requires SectionLines(line, order[..i]) == Ok(done) && line(order[i]) == Ok(next)
    ensures SectionLines(line, order[..i + 1]) == Ok((done.0 + next.0, done.1 + next.1))
  {
    assert order[..i + 1][..i] == order[..i];
  }

  /** One more section whose line fails ends the passes with its fault. */
  lemma SectionLinesFail(line: SectionLine, order: seq<nat>, i: nat)
    requires i < |order|
    requires SectionLines(line, order[..i]).Ok? && line(order[i]).Err?
    ensures SectionLines(line, order[..i + 1]) == Err(line(order[i]).fault)
  {
    assert order[..i + 1][..i] == order[..i];
  }

  /** A failed section ends the passes: later sections change nothing. */
  lemma {:induction false} SectionLinesStop(line: SectionLine, order: seq<nat>, i: nat)
    requires i <= |order| && SectionLines(line, order[..i]).Err?
    ensures SectionLines(line, order) == SectionLines(line, order[..i])
    decreases |order|
  {
    if i < |order| {
      var init := order[..|order| - 1];
      assert init[..i] == order[..i];
      SectionLinesStop(line, init, i);
    } else {
      assert order[..i] == order;
    }
  }

  /** A section's keyword line: its keywords packed into `capacity`. */
  function KeywordLine(font: FontMetrics, keywords: seq<ProcessedItem>, similarities: seq<real>, capacity: nat)
    : SectionLine
    requires Scored(keywords, similarities)
  {
    s => PackLine(font, InSection(keywords, s), similarities, capacity)
  }

  /** The keyword items of a batch all have similarities. */
  lemma KeywordsScored(items: seq<ProcessedItem>, similarities: seq<real>)
    requires KeywordsLocated(items, similarities)
    ensures Scored(OfType(items, KEYWORD), similarities)
  {
    OfTypeFacts(items, KEYWORD);
  }

  /** `pruneKeywords`: nothing when there are no keywords or the capacity
      is not positive, otherwise the lines of the sections in `order`, the
      iteration order of the accounted sections. */
  function KeywordSelection(font: FontMetrics, items: seq<ProcessedItem>, similarities: seq<real>, order: seq<nat>)
    : Result<(seq<ProcessedItem>, nat)>
    requires KeywordsLocated(items, similarities)
  {
    var keywords := OfType(items, KEYWORD);
    var capacity := KeywordCapacity(font, |keywords|);
    KeywordsScored(items, similarities);
    if |keywords| == 0 || capacity <= 0 then Ok(([], 0))
    else SectionLines(KeywordLine(font, keywords, similarities, capacity), order)
  }

  /** The body of `pruneKeywords`' loop for one section: the section's
      keywords packed into one line. */
  method PackSection(font: FontMetrics, keywords: seq<ProcessedItem>, similarities: seq<real>, capacity: int,
                     order: seq<nat>, i: nat, ghost line: SectionLine)
    returns (packed: Result<(seq<ProcessedItem>, nat)>)
    requires Scored(keywords, similarities)
    requires i < |order| && capacity > 0
    requires capacity > 0 ==> forall k {:trigger InSection(keywords, order[k])} :: 0 <= k < |order| ==>
      line(order[k]) == PackLine(font, InSection(keywords, order[k]), similarities, capacity)
    ensures packed == line(order[i])
  {
    var sectionKeywords := InSection(keywords, order[i]);
    packed := Pack(font, sectionKeywords, similarities, capacity);
  }

  /** `pruneKeywords` in src/ranker.py, with the set of sections given as
      the sequence of its iteration order. */
  method PruneKeywords(font: FontMetrics, items: seq<ProcessedItem>, similarities: seq<real>, order: seq<nat>)
    returns (r: Result<(seq<ProcessedItem>, nat)>)
    requires KeywordsLocated(items, similarities)
    ensures r == KeywordSelection(font, items, similarities, order)
  {
    var keywords := OfType(items, KEYWORD);
    KeywordsScored(items, similarities);
    if |keywords| == 0 {
      return Ok(([], 0));
    }
    var headerWeight := GetWidth(font, KEYWORDS_HEADER, REGULAR);
    var separatorWeight := GetWidth(font, SEPARATOR, REGULAR);
    var constWeight := MAX_WIDTH * SPACE_INFO.keywordLinesPerSection - headerWeight;
    var separatorsWeight := (|keywords| - 1) * separatorWeight;
    ghost var capacity := KeywordCapacity(font, |keywords|);
    assert constWeight - separatorsWeight == capacity;
    ghost var line := KeywordLine(font, keywords, similarities, if capacity > 0 then capacity else 0);
    r := PackSections(font, keywords, similarities, order, constWeight, separatorsWeight, line);
  }

  /** The loop of `pruneKeywords` over the accounted sections: the
      capacity, the same for every section, is checked on each pass, and
      each section's keywords are packed into one line. `separatorsWeight`
      is the width of the separators between all the keywords. */
  method PackSections(font: FontMetrics, keywords: seq<ProcessedItem>, similarities: seq<real>, order: seq<nat>,
                      constWeight: int, separatorsWeight: int, ghost line: SectionLine)
    returns (r: Result<(seq<ProcessedItem>, nat)>)
    requires Scored(keywords, similarities)
    requires constWeight - separatorsWeight > 0 ==> forall k {:trigger InSection(keywords, order[k])} :: 0 <= k < |order| ==>
      line(order[k]) == PackLine(font, InSection(keywords, order[k]), similarities, constWeight - separatorsWeight)
    ensures r == if constWeight - separatorsWeight <= 0 then Ok(([], 0)) else SectionLines(line, order)
  {
    var keepers: seq<ProcessedItem> := [];
    var keepersHeight: nat := 0;
    var i := 0;
    while i < |order|
      invariant 0 <= i <= |order|
      invariant i == 0 ==> keepers == [] && keepersHeight == 0
      invariant i > 0 ==> constWeight - separatorsWeight > 0
      invariant i > 0 ==> SectionLines(line, order[..i]) == Ok((keepers, keepersHeight))
    {
      var capacity := constWeight - separatorsWeight;
      if capacity <= 0 {
        return Ok(([], 0));
      }
      var packed := PackSection(font, keywords, similarities, capacity, order, i, line);
      if packed.Err? {
        SectionLinesFail(line, order, i);
        SectionLinesStop(line, order, i + 1);
        return Err(packed.fault);
      }
      SectionLinesSnoc(line, order, i, (keepers, keepersHeight), packed.value);
      keepers := keepers + packed.value.0;
      keepersHeight := keepersHeight + packed.value.1;
      i := i + 1;
    }
    assert order[..i] == order;
    r := Ok((keepers, keepersHeight));
  }

  /** The passes fail exactly when some section's line fails, and with its
      fault; otherwise they keep what the lines keep, each from a section
      of `order`, and keep nothing only for no sections. */
  lemma {:induction false} SectionLinesFacts(line: SectionLine, order: seq<nat>, sections: nat -> set<ProcessedItem>)
    requires forall s :: line(s).Ok? ==> |line(s).value.0| > 0
    requires forall s :: line(s).Ok? ==> forall x :: x in line(s).value.0 ==> x in sections(s)
    ensures var r := SectionLines(line, order);
      && (r.Err? <==> exists j :: 0 <= j < |order| && line(order[j]).Err?)
      && (r.Err? ==> exists j :: 0 <= j < |order| && line(order[j]).Err? && r.fault == line(order[j]).fault)
      && (r.Ok? ==> forall x :: x in r.value.0 ==> exists j :: 0 <= j < |order| && x in sections(order[j]))
      && (r.Ok? ==> (|r.value.0| == 0 <==> |order| == 0))
    decreases |order|
  {
    var n := |order|;
    if n > 0 {
      var init := order[..n - 1];
      SectionLinesFacts(line, init, sections);
      var r := SectionLines(line, order);
      var before := SectionLines(line, init);
      forall j | 0 <= j < n - 1 ensures order[j] == init[j] { }
      if before.Ok? && r.Ok? {
        forall x | x in r.value.0 ensures exists j :: 0 <= j < n && x in sections(order[j]) {
          if x !in before.value.0 {
            assert x in sections(order[n - 1]);
          }
        }
      }
    }
  }

  /** What a section's keyword line keeps are keywords of that section. */
  lemma KeywordLineFacts(font: FontMetrics, keywords: seq<ProcessedItem>, similarities: seq<real>, capacity: nat)
    requires Scored(keywords, similarities)
    ensures var line := KeywordLine(font, keywords, similarities, capacity);
      && (forall s :: line(s).Err? ==> line(s).fault == IndexError)
      && (forall s :: line(s).Ok? ==> |line(s).value.0| > 0)
      && (forall s :: line(s).Ok? ==> forall x :: x in line(s).value.0 ==> x in InSection(keywords, s))
  {
    var line := KeywordLine(font, keywords, similarities, capacity);
    forall s ensures line(s) == PackLine(font, InSection(keywords, s), similarities, capacity) {
    }
    forall s ensures var g := InSection(keywords, s); Scored(g, similarities) {
    }
    forall s {
      PackLineFits(font, InSection(keywords, s), similarities, capacity);
    }
  }

  /** `pruneKeywords` returns nothing exactly when there are no keywords,
      the capacity is not positive or no section is accounted; it raises
      IndexError exactly when some section's line keeps nothing; what it
      keeps are keywords of the input from the accounted sections. */
  lemma KeywordSelectionFacts(font: FontMetrics, items: seq<ProcessedItem>, similarities: seq<real>, order: seq<nat>)
    requires KeywordsLocated(items, similarities)
    ensures var r := KeywordSelection(font, items, similarities, order);
      var keywords := OfType(items, KEYWORD);
      var capacity := KeywordCapacity(font, |keywords|);
      && (r == Ok(([], 0)) <==> |keywords| == 0 || capacity <= 0 || |order| == 0)
      && (r.Err? <==>
            (&& |keywords| > 0 && capacity > 0 && Scored(keywords, similarities)
             && exists j :: 0 <= j < |order| && PackLine(font, InSection(keywords, order[j]), similarities, capacity).Err?))
      && (r.Err? ==> r.fault == IndexError)
      && (r.Ok? ==> forall x :: x in r.value.0 ==> x in items && x.itemType == KEYWORD && SectionOf(x.metadata) in order)
  {
    var keywords := OfType(items, KEYWORD);
    var capacity := KeywordCapacity(font, |keywords|);
    KeywordsScored(items, similarities);
    OfTypeFacts(items, KEYWORD);
    if |keywords| > 0 && capacity > 0 {
      var line := KeywordLine(font, keywords, similarities, capacity);
      var sections := (s: nat) => set x | x in InSection(keywords, s);
      KeywordLineFacts(font, keywords, similarities, capacity);
      SectionLinesFacts(line, order, sections);
      var r := SectionLines(line, order);
      assert r == KeywordSelection(font, items, similarities, order);
      forall j | 0 <= j < |order| ensures line(order[j]) == PackLine(font, InSection(keywords, order[j]), similarities, capacity) {
      }
      if r.Err? {
        var j :| 0 <= j < |order| && line(order[j]).Err? && r.fault == line(order[j]).fault;
      }
      if r.Ok? {
        forall x | x in r.value.0 ensures x in items && x.itemType == KEYWORD && SectionOf(x.metadata) in order {
          var j :| 0 <= j < |order| && x in sections(order[j]);
        }
      }
    }
  }

  // ---- pruneSkills ----

  /** What `pruneSkills` reads of a skill: `similarities[s.index]`. */
  predicate SkillsScored(items: seq<ProcessedItem>, similarities: seq<real>)
  {
    forall i :: 0 <= i < |items| && items[i].itemType == SKILL ==> items[i].index < |similarities|
  }

  /** A batch scored item by item meets what `pruneKeywords` and
      `pruneSkills` read: each keyword carries its section and has a
      similarity, and so has each skill. */
  lemma BatchScored(font: FontMetrics, content: Content, jobPosting: string, similarities: seq<real>)
    requires |similarities| == |Batch(font, content, jobPosting)|
    ensures KeywordsLocated(Batch(font, content, jobPosting), similarities)
    ensures SkillsScored(Batch(font, content, jobPosting), similarities)
  {
    var b := Batch(font, content, jobPosting);
    BatchIndexed(font, content, jobPosting);
    BatchSkillsFirst(font, content, jobPosting);
    BatchPostingLast(font, content, jobPosting);
    BatchBody(font, content, jobPosting);
    forall i | 0 <= i < |b| && b[i].itemType == KEYWORD ensures Located(b[i], similarities) {
      assert |content.skills.list| <= i < |b| - 1;
      assert Traces(content.experience.jobs, b[i]);
    }
  }

  /** The width the skills may take: the skills lines less one separator
      between each two skills. */
  function SkillCapacity(font: FontMetrics, skillCount: nat): int
  {
    MAX_WIDTH * SPACE_INFO.skillsLineCount - (skillCount - 1) * Width(font, SEPARATOR, REGULAR)
  }

  /** `pruneSkills`: nothing when there are no skills or the capacity is
      not positive, otherwise one packed line of all the skills. */
  function SkillSelection(font: FontMetrics, items: seq<ProcessedItem>, similarities: seq<real>)
    : Result<(seq<ProcessedItem>, nat)>
    requires SkillsScored(items, similarities)
  {
    var skills := OfType(items, SKILL);
    var capacity := SkillCapacity(font, |skills|);
    OfTypeFacts(items, SKILL);
    if |skills| == 0 || capacity <= 0 then Ok(([], 0))
    else PackLine(font, skills, similarities, capacity)
  }

  /** `pruneSkills` in src/ranker.py. */
  method PruneSkills(font: FontMetrics, items: seq<ProcessedItem>, similarities: seq<real>)
    returns (r: Result<(seq<ProcessedItem>, nat)>)
    requires SkillsScored(items, similarities)
    ensures r == SkillSelection(font, items, similarities)
  {
    var skills := OfType(items, SKILL);
    OfTypeFacts(items, SKILL);
    if |skills| == 0 {
      return Ok(([], 0));
    }
    var separatorWeight := GetWidth(font, SEPARATOR, REGULAR);
    var constWeight := MAX_WIDTH * SPACE_INFO.skillsLineCount;
    var capacity := constWeight - (|skills| - 1) * separatorWeight;
    if capacity <= 0 {
      return Ok(([], 0));
    }
    r := Pack(font, skills, similarities, capacity);
  }

  /** `pruneSkills` returns nothing exactly when there are no skills or
      the capacity is not positive; it raises IndexError exactly when the
      knapsack keeps no skill; what it keeps are skills of the input whose
      widths fit the capacity. */
  lemma SkillSelectionFacts(font: FontMetrics, items: seq<ProcessedItem>, similarities: seq<real>)
    requires SkillsScored(items, similarities)
    ensures var r := SkillSelection(font, items, similarities);
      var skills := OfType(items, SKILL);
      var capacity := SkillCapacity(font, |skills|);
      && (r == Ok(([], 0)) <==> |skills| == 0 || capacity <= 0)
      && (r.Err? ==> r.fault == IndexError && |skills| > 0 && capacity > 0)
      && (r.Ok? && |skills| > 0 && capacity > 0 ==> TotalWidth(r.value.0) <= capacity)
      && (r.Ok? ==> forall x :: x in r.value.0 ==> x in items && x.itemType == SKILL)
  {
    var skills := OfType(items, SKILL);
    var capacity := SkillCapacity(font, |skills|);
    OfTypeFacts(items, SKILL);
    if |skills| > 0 && capacity > 0 {
      PackLineFits(font, skills, similarities, capacity);
    }
  }

  // ---- the required lines and what they leave ----

  /** A line of text with the size it is set in. */
  type SizedLine = (string, SizeInfo)

  /** The concentration line, when a non-empty concentration is given. */
  function ConcentrationLine(e: Education): seq<SizedLine>
  {
    match e.concentration
    case Some(conc) => if |conc| > 0 then [("Concentration in " + conc, REGULAR)] else []
    case None => []
  }

  /** The graduation line, worded by whether the degree is complete. */
  function GraduationLine(e: Education): seq<SizedLine>
  {
    match e.graduation
    case Some(grad) =>
      if grad.hasGraduated then [("Graduated: " + grad.on, REGULAR)]
      else [("Expected Graduation: " + grad.on, REGULAR)]
    case None => []
  }

  /** `generateRequiredLines`: the contact block, the skills, experience
      and education titles after a gap each, and the education lines;
      `combine` raises on empty honors or courses. */
  function RequiredLines(content: Content): Result<seq<SizedLine>>
  {
    var c := content.contact;
    var e := content.education;
    if |e.honors| == 0 || |e.courses| == 0 then Err(IndexError)
    else Ok(
      [ (c.name, NAME),
        ("Email: " + c.email + " | Phone: " + c.phone + " | " + c.location, REGULAR),
        ("Github: " + c.github + " | Website: " + c.website, REGULAR),
        ("", GAP),
        (content.skills.title, TITLE),
        ("", GAP),
        (content.experience.title, TITLE),
        ("", GAP),
        (e.title, TITLE),
        (e.degree + " in " + e.major, REGULAR) ]
      + ConcentrationLine(e)
      + [(e.school + ", " + e.location, REGULAR)]
      + GraduationLine(e)
      + [ ("GPA: " + e.gpa, REGULAR),
          ("Honors: " + Join(e.honors, SEPARATOR), REGULAR),
          ("Relevant Courses: " + Join(e.courses, SEPARATOR), REGULAR) ])
  }

  /** The required lines fail exactly on empty honors or courses; otherwise
      there are fourteen of them plus one for a concentration and one for a
      graduation, the name comes first at its size, three blank gaps
      separate the titles and the honors and courses lines come last. */
  lemma RequiredLinesShape(content: Content)
    ensures var r := RequiredLines(content);
      var e := content.education;
      && (r.Err? <==> |e.honors| == 0 || |e.courses| == 0)
      && (r.Err? ==> r.fault == IndexError)
      && (r.Ok? ==>
            && |r.value| == 14 + |ConcentrationLine(e)| + |GraduationLine(e)|
            && r.value[0] == (content.contact.name, NAME)
            && r.value[3] == r.value[5] == r.value[7] == ("", GAP)
            && r.value[|r.value| - 2].0 == "Honors: " + Join(e.honors, SEPARATOR)
            && r.value[|r.value| - 1].0 == "Relevant Courses: " + Join(e.courses, SEPARATOR))
      && (|ConcentrationLine(e)| == 1 <==> e.concentration.Some? && |e.concentration.value| > 0)
      && (|GraduationLine(e)| == 1 <==> e.graduation.Some?)
  {
  }

  /** `sum(getHeight(text, size) for text, size in lines)`. */
  function LinesHeight(font: FontMetrics, lines: seq<SizedLine>): nat
    decreases |lines|
  {
    if |lines| == 0 then 0 else LinesHeight(font, lines[..|lines| - 1]) + Height(font, lines[|lines| - 1].0, lines[|lines| - 1].1)
  }

  /** `getRequiredLineWeights`: the page height the lines leave, never
      below zero. */
  function RemainingHeight(font: FontMetrics, lines: seq<SizedLine>): (r: nat)
    ensures r <= MAX_HEIGHT
    ensures r == 0 <==> LinesHeight(font, lines) >= MAX_HEIGHT
    ensures r > 0 ==> r + LinesHeight(font, lines) == MAX_HEIGHT
  {
    if MAX_HEIGHT >= LinesHeight(font, lines) then MAX_HEIGHT - LinesHeight(font, lines) else 0
  }

  /** The height of lines put together is the sum of their heights. */
  lemma {:induction false} LinesHeightAppend(font: FontMetrics, a: seq<SizedLine>, b: seq<SizedLine>)
    ensures LinesHeight(font, a + b) == LinesHeight(font, a) + LinesHeight(font, b)
    decreases |b|
  {
    if |b| > 0 {
      var n := |b|;
      LinesHeightAppend(font, a, b[..n - 1]);
      assert (a + b)[..|a + b| - 1] == a + b[..n - 1];
    } else {
      assert a + b == a;
    }
  }

  /** More required lines never leave more room. */
  lemma RemainingShrinks(font: FontMetrics, lines: seq<SizedLine>, more: seq<SizedLine>)
    ensures RemainingHeight(font, lines + more) <= RemainingHeight(font, lines)
  {
    LinesHeightAppend(font, lines, more);
  }
}
