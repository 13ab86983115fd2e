# resublox content-selection engine, in Dafny

resublox fits a resume to one page for a given job posting. It measures how
much page space each piece of the resume takes, then keeps the most relevant
bullet points, keywords and skills that fit. Relevance is the similarity of
each text to the posting. The space is measured in "Scaled Dimension" units,
which are thousandths of an inch. This project models the engine's core and
proves what it computes:

- **Core** (`src/core.py`): the page geometry. Also the line height of each
  font size, and the width and height of a text. The font's cmap and hmtx
  tables are a map from code point to advance width, with the average width
  for characters the font lacks. The space budget of structural groups is
  here too.
- **Catalog** (`makeBatch` in `src/ranker.py`): the document flattened into
  one list of scorable items. Each item records its own position and, for
  points and keywords, its job and section.
- **LegacyBatch** (`makeBatch` in the top-level `ranker.py`): the older
  catalog. It lists skills, then per section the points, the keywords and
  one composite text, then the posting. Beside the list it builds a map of
  inclusive index ranges.
- **Knapsack** (`knapsack` in `src/ranker.py` and the script
  `knapsack.py`): the 0/1 table fill and the backward reconstruction.
- **Greedy** and **Selector** (`prunePoints` with its inner `iterate`): up to
  ten rounds of point selection. Each round re-solves for a capacity that is
  adjusted by the overhead of the jobs and sections that open or close. When
  every point has the same height, a round takes the highest-valued points
  in place of the knapsack.
- **Pruners**: `combine`, `pruneKeywords`, `pruneSkills`,
  `generateRequiredLines` and `getRequiredLineWeights` of `src/ranker.py`.
- **Lines** (`src/lineGenerator.py`): the line lists of the document and
  their heights.
- **Links** (`src/linkHandler.py`): a `Link` class and a `LinkCollection`
  class, whose constructors and methods update their fields in place. The
  link's alias is settled when it is made, and its URL gets a scheme. The
  module also lays out a collection as document runs.
- **Resume**, **Text** and **Wrappers**: the typed resume document, Python's
  `str.join`/`startswith`/`isspace`, and `Option`/`Result` with the faults
  the source raises (`IndexError`, `ZeroDivisionError`, and `exit()` as
  `Exit`).

The model follows the code where the code is surprising. Sections are told
apart by their section index alone, so equal indices of different jobs count
as one section. A collapsing round in `prunePoints` leaves an all-false mask
as long as all items, not just the points, and keeps the previous accounts.
`pruneKeywords` sizes every section's capacity with the count of all
keywords. `combine` of `src/ranker.py` raises on an empty list, so a pruner
whose knapsack keeps nothing fails. The same happens to
`generateRequiredLines` when honors or courses are empty.

The code's operations that work by steps are methods with loop invariants,
each proved equal to a specification function. Properties of those functions
are lemmas. The faults the source raises on its own inputs are `Err`
results, not preconditions. The exception is a similarity or metadata
lookup on a malformed item list. The three pruners require that every item
they read has its entries. A batch built by `makeBatch` always meets this
requirement (Selector.BatchLocated, Pruners.BatchScored).

## Model

| member | source | states |
|---|---|---|
| Core.PageGeometry | src/core.py:69-71 | The printable width is 6500 and the printable height 9000: the page less the right and left margins, and the page less the top and bottom margins, over one page. |
| Core.MakeSize | src/core.py:80-83 | A size's line height is the floor of fontHeightUnits · size · 1.15 / unitsPerEm / 72 · 1000, stated as two bounds on the exact product. |
| Core.HeightMonotone | src/core.py:80-83 | A larger point size never has a smaller line height. |
| Core.SizesComputed | src/core.py:86-94 | The six module-level sizes (name, title, subtitle, regular, gap, small gap) are the ones `SizeInfo(size)` builds. |
| Core.Width | src/core.py:111-128 | Specification of `getWidth`: the floor of the scaled design-unit total of the text. Core.GetWidth and Core.ScaleWidth state its properties. |
| Core.UnitsAppend | src/core.py:115-122 | The design-unit total of a concatenation is the sum of the parts' totals: a mapped character adds its advance width, an unmapped one the average 1079. |
| Core.ScaleWidth | src/core.py:124-126 | A width is the floor of units · size · 1000 / (2048 · 72). |
| Core.GetWidth | src/core.py:111-128 | The character loop computes the width function, and that width is at most the exact scaled unit total. |
| Core.Height | src/core.py:130-140 | Specification of `getHeight`: the empty-text height for a blank text, otherwise the line height times the line count. Core.BlankHeight and Core.TextHeight state its properties. |
| Core.LineCount | src/core.py:136 | `ceil(width / maxWidth)`: the fewest lines of the printable width that hold the width. |
| Core.BlankHeight | src/core.py:132-133 | An empty or all-whitespace text is as high as the empty text, the floor of size / 72 · 1000, whatever its characters. |
| Core.TextHeight | src/core.py:135-140 | Any other text is a whole number of the size's lines high, and at least one line when its width is positive. |
| Core.OfTypeFacts | src/ranker.py:349 | Filtering items by type keeps exactly the items of that type. |
| Core.MakeSpaceInformation | src/core.py:170-177 | A job costs 897 (four regular lines, a small gap and a gap), a section 257 (subtitle and small gap); the skills reserve is 366, the keyword and course reserves 183 each, the height 9000. |
| Core.SpaceComputed | src/ranker.py:10 | The module-level space information is the one the initialiser builds. |
| Text.Join | src/linkHandler.py:83 | Specification of Python's `separator.join(texts)`. Text.JoinEndsWithLast, Pruners.TerminatedJoin and Links.CollectionText state its properties. |
| Text.JoinEndsWithLast | src/ranker.py:40-44 | A joined list ends with its last text, with no separator after it. |
| Pruners.TerminatedJoin | src/ranker.py:40-44 | Each leading text followed by the separator, then the last text, is the separator-join of the list. |
| Pruners.Combine | src/ranker.py:35-46 | `combine` fails with IndexError on an empty list and otherwise returns the texts joined by the separator. |
| Knapsack.Best | src/ranker.py:204-214 | Specification of the knapsack table: cell (i, w) is the best value of the first i items within capacity w under the 0/1 recurrence, column 0 left at zero. Knapsack.BestGrowsDown, Knapsack.BestMonotone and Knapsack.BestIsOptimal state its properties. |
| Knapsack.Choose | src/ranker.py:216-221 | The backward walk decides each item exactly once. |
| Knapsack.BestGrowsDown | src/ranker.py:209-214 | Every cell of the table is non-negative and at least the cell above it. |
| Knapsack.BestMonotone | src/ranker.py:206-214 | Along a row the table never decreases: more capacity is never worse. |
| Knapsack.TakenFits | src/ranker.py:219-221 | An item whose row changes the cell fits the capacity left, and the cell is its value plus the cell it came from. |
| Knapsack.ChooseFits | src/ranker.py:216-221 | The reconstructed items weigh at most the capacity. |
| Knapsack.ChooseValue | src/ranker.py:216-221 | The reconstructed items are worth exactly the final cell of the table. |
| Knapsack.BestIsOptimal | src/ranker.py:204-214 | With positive weights, no choice that fits the capacity is worth more than the final cell. |
| Knapsack.ZeroWeightShortfall | src/ranker.py:207 | Column 0 is never filled: for values [5, 1], weights [0, 1] and capacity 1 the table gives 5, while taking both items fits and is worth 6. |
| Knapsack.FillTable | src/ranker.py:204-214 | The fill loop leaves row 0 and column 0 at zero and every other cell equal to the 0/1 recurrence. |
| Knapsack.Reconstruct | src/ranker.py:216-223 | The backward loop over the filled table returns the reconstruction function's mask. |
| Knapsack.Solve | src/ranker.py:195-223 | `knapsack` stops with Exit exactly when the lists differ in length; otherwise its mask has one entry per item, fits the capacity and reaches the table's best value. |
| Knapsack.Script | knapsack.py:7-36 | The script stops with Exit exactly when the lists differ in length; otherwise it reports the table's best value and a mask worth exactly that value. |
| Knapsack.ScriptResult | knapsack.py:2-5 | For the hard-coded inputs the maximum value is 8, with the mask [false, true, false, true]. |
| Catalog.AppendSkills | src/ranker.py:112-125 | The skills loop appends one skill item per skill, measured by its width, and its text. |
| Catalog.AppendPoints | src/ranker.py:130-145 | The points loop appends one point item per point, measured by the height of its bullet line, and its text. |
| Catalog.AppendKeywords | src/ranker.py:147-162 | The keywords loop appends one keyword item per keyword, measured by its width, and its text. |
| Catalog.AppendSection | src/ranker.py:130-162 | One section appends its points and then its keywords. |
| Catalog.AppendJob | src/ranker.py:129-162 | One job appends its sections in order. |
| Catalog.AppendJobs | src/ranker.py:127-162 | The jobs loop appends every job's items in order. |
| Catalog.MakeBatch | src/ranker.py:107-173 | `makeBatch` returns the batch function's items, and `batchIn[i]` is the text of item i for every i. |
| Catalog.SkillItemsAt | src/ranker.py:114-123 | Skill item k is made from skill k. |
| Catalog.PointItemsAt | src/ranker.py:130-144 | Point item k of a section is made from point k with its job, section and point indices. |
| Catalog.KeywordItemsAt | src/ranker.py:147-161 | Keyword item k of a section is made from keyword k with its job, section and keyword indices. |
| Catalog.PointsPlace | src/ranker.py:139-143 | A section's point items name its job and section, in list order. |
| Catalog.KeywordsPlace | src/ranker.py:156-160 | A section's keyword items name its job and section, in list order. |
| Catalog.SectionPlace | src/ranker.py:129-162 | A section's items name its job and section, with the points before the keywords. |
| Catalog.SectionTrace | src/ranker.py:129-162 | Every item of a section carries the text its metadata names. |
| Catalog.SectionsPlace | src/ranker.py:129-162 | The items of a job's first n sections name that job and those sections, in document order. |
| Catalog.SectionsTrace | src/ranker.py:129-162 | The items of a job's first n sections carry the texts their metadata names. |
| Catalog.JobsPlace | src/ranker.py:128-162 | The items of the first n jobs name those jobs, in document order. |
| Catalog.JobsTrace | src/ranker.py:128-162 | The items of the first n jobs carry the texts their metadata names. |
| Catalog.JobsFacts | src/ranker.py:127-162 | Every point and keyword item of the jobs traces back to its text, in document order. |
| Catalog.BatchIndexed | src/ranker.py:110-171 | Every item of the batch records its own position as its index. |
| Catalog.BatchSkillsFirst | src/ranker.py:112-125 | The skills come first, in order. |
| Catalog.BatchPostingLast | src/ranker.py:164-171 | The job posting is the last item and the only item of its type. |
| Catalog.BatchHolds | src/ranker.py:127-162 | Every point and every keyword of the document has an item, with its metadata, between the skills and the posting. |
| Catalog.BatchBody | src/ranker.py:127-162 | Between the skills and the posting lies every point and keyword: each item traces back to its text, the items come in document order, and every point (j, s, p) and keyword (j, s, k) of the document has an item there. |
| LegacyBatch.AppendTexts | ranker.py:71-82 | An inner loop appends its texts and keeps the counter equal to the batch length. |
| LegacyBatch.Composite | ranker.py:86 | Specification of a section's composite text, `' '.join(points + keywords)`. LegacyBatch.LegacySectionLaid states where it lies in the batch. |
| LegacyBatch.AppendSection | ranker.py:67-96 | One section appends its points, its keywords and its composite, and records their ranges starting at the counter. |
| LegacyBatch.AppendJob | ranker.py:61-99 | One job appends its sections and records its span and its sections' ranges. |
| LegacyBatch.AppendJobs | ranker.py:61-99 | The jobs loop appends every job's texts and records every job's ranges. |
| LegacyBatch.MakeLegacyBatch | ranker.py:43-104 | `makeBatch` returns the batch function's texts and map. |
| LegacyBatch.SectionsAt | ranker.py:92-96 | There is one ranges record per section. |
| LegacyBatch.JobsAt | ranker.py:99 | There is one ranges record per job. |
| LegacyBatch.SectionHolds | ranker.py:67-90 | Ranges laid out from where a section's texts start hold its points, its keywords and its composite. |
| LegacyBatch.JobSpanAt | ranker.py:65-99 | A job's span runs from its first section's points to its last section's composite; without sections it is empty (end = start - 1). |
| LegacyBatch.LegacySkills | ranker.py:45-57 | The skills range is [0, len(skills) - 1] and holds the skills; without skills it stays None. |
| LegacyBatch.LegacyPostingLast | ranker.py:101-102 | The posting is the last text, and its range is that one position. |
| LegacyBatch.LegacySectionAt | ranker.py:65-96 | A section's ranges start after the skills, the earlier jobs and the job's earlier sections. |
| LegacyBatch.LegacySectionWithin | ranker.py:67-90 | A section's texts sit in the batch at the position its ranges start from. |
| LegacyBatch.LegacySectionLaid | ranker.py:67-90 | Keywords start right after the points, the composite right after the keywords, each range as long as its list, and the ranges hold the section's texts, including the composite `' '.join(points + keywords)`. |
| LegacyBatch.LegacyJobPlaced | ranker.py:65-102 | Jobs' spans follow each other without a gap, starting after the skills, and the posting follows the last job. |
| LegacyBatch.LegacyLaid | ranker.py:43-104 | Every range of the map lies in the batch and holds what it names. |
| Greedy.Ranking | src/ranker.py:233 | The sort lists each position of the values exactly once. |
| Greedy.RankingFacts | src/ranker.py:233 | The sort orders positions by value, highest first, ties in input order, as a stable reverse sort does. |
| Greedy.Mark | src/ranker.py:234-236 | The marking loop's mask has one entry per position. |
| Greedy.MarkFacts | src/ranker.py:234-236 | A position is marked exactly when it is among the first k of the order, and k positions are marked. |
| Greedy.AllFalse | src/ranker.py:229 | The all-false mask has the given length and no marked entry. |
| Greedy.TakeHighest | src/ranker.py:232-236 | The shortcut's mask has one entry per point. |
| Greedy.GreedyTop | src/ranker.py:232-236 | The shortcut chooses exactly min(n, maxItems) points, and each chosen point ranks ahead of each point left out. |
| Greedy.UniformWeight | src/ranker.py:231-232 | With every height equal to w, a choice weighs w per chosen point. |
| Selector.Pick | src/ranker.py:227-240 | A round's mask has one entry per point. |
| Selector.PickFails | src/ranker.py:231-232 | A round fails exactly when the shortcut applies with no points (IndexError on `targetWeights[0]`) or with zero heights (ZeroDivisionError). |
| Selector.PickNothing | src/ranker.py:228-229 | A capacity that is not positive chooses nothing. |
| Selector.PickFits | src/ranker.py:227-240 | A round's choice weighs at most the capacity. |
| Selector.UniformFits | src/ranker.py:232-236 | `capacity // height` equal-height points fit the capacity. |
| Selector.PickUniform | src/ranker.py:231-236 | With equal positive heights, exactly min(n, capacity // height) of the highest-valued points are chosen. |
| Selector.PickKnapsack | src/ranker.py:237-238 | With unequal heights no choice that fits is worth more than the round's. |
| Selector.Iterate | src/ranker.py:227-240 | `iterate`, with its marking loop, computes the round function. |
| Selector.TargetsFacts | src/ranker.py:242 | The targets are exactly the POINT items. |
| Selector.BatchLocated | src/ranker.py:263-265 | A batch built by `makeBatch` and scored item by item meets what `prunePoints` reads: a similarity and a job and section for every point. |
| Selector.Similarities | src/ranker.py:243 | One value per point. |
| Selector.Heights | src/ranker.py:244 | One weight per point. |
| Selector.PointValues | src/ranker.py:243 | One value per point of the items. |
| Selector.DistinctOf | src/ranker.py:260-268 | The collecting loop yields the jobs and sections of the chosen points. |
| Selector.NetChange | src/ranker.py:270-279 | Specification of `netOverheadChange`: the overhead (897 per job; 257 + 183 per section) of the jobs and sections that open, less a gap and a small gap, minus the overhead of those that close. Selector.NetUnchanged and Selector.NetOneNewJob state its values. |
| Selector.NetUnchanged | src/ranker.py:277-279 | A round that opens and closes nothing changes the overhead by -165 (one gap and one small gap), so the capacity grows. |
| Selector.NetOneNewJob | src/ranker.py:277-279 | Opening one job and nothing else costs 897 - 165. |
| Selector.RoundOf | src/ranker.py:258-268 | A round's mask has one entry per point. |
| Selector.Run | src/ranker.py:247-297 | Specification of `prunePoints`' rounds loop as a recursion on the round number from the current capacity and accounts. Selector.RunFacts, Selector.RunEnds, Selector.RunFails and Selector.RunContinues state its properties. |
| Selector.RunFacts | src/ranker.py:253-297 | The rounds end after at most ten. A zero net change, a collapse, a net change of ±1 or the tenth round explains the stop. A collapse chooses nothing; otherwise the choice is the last round's, and settled or exhausted rounds account its jobs and sections. |
| Selector.RunEnds | src/ranker.py:281-297 | On a zero net change or a collapse the accounts stay; on a net change of ±1 or the tenth round they become the round's. |
| Selector.RunFails | src/ranker.py:258 | A failing round fails the loop with its fault. |
| Selector.RunContinues | src/ranker.py:283-294 | Otherwise the next round solves for `capacity - netOverheadChange` with the round's jobs and sections accounted. |
| Selector.PlayRound | src/ranker.py:258-268 | The loop body's round is the round function at the current capacity. |
| Selector.PlayRounds | src/ranker.py:247-297 | The rounds loop computes the rounds function from capacity `heightRemaining` with nothing accounted. |
| Selector.PrunePoints | src/ranker.py:225-309 | `prunePoints` returns the selection function of its inputs. |
| Selector.OutcomeInRange | src/ranker.py:286-299 | The final mask chooses only positions of points. |
| Selector.OutcomeChoice | src/ranker.py:258-294 | At most ten rounds run. A collapse leaves an all-false mask as long as all items. Otherwise the mask is a round's choice at the last capacity, and settled or exhausted rounds account that choice's jobs and sections. |
| Selector.KeepPositions | src/ranker.py:299 | The keepers are the points at the chosen positions, in increasing order. |
| Selector.KeepHeight | src/ranker.py:300 | The keepers' heights sum to the weight of the choice. |
| Selector.KeepNone | src/ranker.py:286-299 | Nothing chosen, nothing kept. |
| Selector.SelectionKeepers | src/ranker.py:299 | Every keeper is a POINT item of the input, in target order. |
| Selector.SelectionFits | src/ranker.py:285-300 | A collapse keeps nothing; otherwise the keepers' heights sum to at most the last capacity. |
| Selector.JobsOfKeep | src/ranker.py:260-268 | The jobs and sections of a choice are those of the points it keeps. |
| Selector.SelectionParts | src/ranker.py:299-309 | The selection keeps the chosen points and returns the loop's accounted jobs and sections. |
| Selector.SelectionAccounts | src/ranker.py:293-309 | When the rounds settle or run out, the accounted jobs and sections are those of the keepers. |
| Selector.NoPointsRun | src/ranker.py:231-232 | Without points, rounds that grow the capacity by 165 each fail with IndexError once it turns positive. |
| Selector.NoPointsFails | src/ranker.py:225-244 | `prunePoints` over items without a point, with a height above -1485, raises IndexError. |
| Pruners.Scores | src/ranker.py:329 | One similarity per item of the group. |
| Pruners.Widths | src/ranker.py:330 | One width per item of the group. |
| Pruners.Picked | src/ranker.py:336 | One knapsack decision per item of the group. |
| Pruners.KeepSums | src/ranker.py:338-342 | The kept items' widths and similarities sum to the weight and value of the choice. |
| Pruners.PackLineFits | src/ranker.py:336-344 | A line fails with IndexError exactly when the knapsack keeps nothing; otherwise it keeps items of the group whose widths fit the capacity. |
| Pruners.PackLineBest | src/ranker.py:336-344 | With positive widths no choice of the group that fits is more similar in sum than the line. |
| Pruners.Pack | src/ranker.py:336-344 | The knapsack, the keeping loop, `combine` and the height compute the line function. |
| Pruners.InSection | src/ranker.py:326 | A section's keywords are exactly the keywords whose section index is that section. |
| Pruners.SectionLinesSnoc | src/ranker.py:325-344 | One more section whose line succeeds adds its keepers and its height. |
| Pruners.SectionLinesFail | src/ranker.py:325-344 | One more section whose line fails ends with its fault. |
| Pruners.SectionLinesStop | src/ranker.py:325-344 | After a failed section later sections change nothing. |
| Pruners.KeywordsScored | src/ranker.py:329 | Every keyword item of the input has a similarity. |
| Pruners.PackSection | src/ranker.py:326-344 | The loop body packs the section's keywords into its line. |
| Pruners.KeywordSelection | src/ranker.py:311-346 | Specification of `pruneKeywords`: `([], 0)` without keywords or room, otherwise the lines of the accounted sections in their iteration order. Pruners.KeywordSelectionFacts states its properties. |
| Pruners.PruneKeywords | src/ranker.py:311-346 | `pruneKeywords` returns the keyword selection function of its inputs, in the sections' iteration order. |
| Pruners.PackSections | src/ranker.py:325-346 | The sections loop returns `([], 0)` when the capacity is not positive, and otherwise the sections' lines in order. |
| Pruners.SectionLinesFacts | src/ranker.py:325-346 | The sections fail exactly when one section's line fails, with that fault; every keeper comes from one of the sections, and there are none exactly when there are no sections. |
| Pruners.KeywordLineFacts | src/ranker.py:326-344 | A section's line fails only with IndexError, keeps at least one keyword otherwise, and keeps only keywords of that section. |
| Pruners.KeywordSelectionFacts | src/ranker.py:311-346 | `([], 0)` exactly when there are no keywords, the capacity is not positive or no section is accounted. It fails, with IndexError, exactly when some section's line keeps nothing. Every keeper is a keyword of an accounted section. |
| Pruners.SkillSelection | src/ranker.py:348-380 | Specification of `pruneSkills`: `([], 0)` without skills or room, otherwise the skills packed into one line. Pruners.SkillSelectionFacts states its properties. |
| Pruners.BatchScored | src/ranker.py:326-364 | A batch built by `makeBatch` and scored item by item meets what `pruneKeywords` and `pruneSkills` read: a similarity and a section for every keyword, and a similarity for every skill. |
| Pruners.PruneSkills | src/ranker.py:348-380 | `pruneSkills` returns the skill selection function of its inputs. |
| Pruners.SkillSelectionFacts | src/ranker.py:348-380 | `([], 0)` exactly when there are no skills or the capacity is not positive; a failure is IndexError; the keepers are skills of the input whose widths fit the capacity. |
| Pruners.RequiredLines | src/ranker.py:48-105 | Specification of `generateRequiredLines`: the texts and sizes of the contact, headers and education lines, or IndexError when honors or courses are empty. Pruners.RequiredLinesShape and Lines.RequiredLinesAgree state its properties. |
| Pruners.RequiredLinesShape | src/ranker.py:48-105 | The lines fail with IndexError exactly when honors or courses are empty. Otherwise there are 14 lines, plus one for a non-empty concentration and one for a graduation: the name first, gaps at 3, 5 and 7, honors and courses last. |
| Pruners.RemainingHeight | src/ranker.py:175-179 | The remaining height is at most the page height, 0 exactly when the lines fill the page, and otherwise the page height less the lines' height. |
| Pruners.LinesHeightAppend | src/ranker.py:176 | The height of lines put together is the sum of their heights. |
| Pruners.RemainingShrinks | src/ranker.py:175-179 | More required lines never leave more room. |
| Lines.Combine | src/lineGenerator.py:19-22 | Specification of `LineGenerator.combine`: "" for no texts, otherwise the separator-join. Lines.CombineFacts states its properties. |
| Lines.CombineFacts | src/lineGenerator.py:19-22 | No texts combine to "", one text to itself, more to the texts with one separator between each pair; adding a text adds the separator and the text. |
| Lines.GenerateContactLines | src/lineGenerator.py:24-44 | The contact method builds the contact lines. |
| Lines.ContactLinesShape | src/lineGenerator.py:24-44 | Three required lines, the name first at the name size. |
| Lines.TitleLines | src/lineGenerator.py:46-65 | A header is a required gap and then the title. |
| Lines.SkillsHeader | src/lineGenerator.py:46-50 | Specification of `generateSkillsHeader`. Lines.TitleLines states its properties. |
| Lines.ExperienceHeader | src/lineGenerator.py:61-65 | Specification of `generateExperienceHeader`. Lines.TitleLines states its properties. |
| Lines.SkillsContent | src/lineGenerator.py:52-59 | Specification of `generateSkillsContent`. Lines.SkillsContentFacts states its properties. |
| Lines.SkillsContentFacts | src/lineGenerator.py:52-59 | The skills line is optional, regular-sized, and empty exactly when there are no skills or one empty skill. |
| Lines.GenerateJobHeader | src/lineGenerator.py:67-98 | The job-header method, whose two branches add the same line, builds the job header. |
| Lines.JobHeaderShape | src/lineGenerator.py:67-98 | Six optional lines, a gap first and a small gap last. The dates are joined by the separator exactly as the source writes it: a space, the mis-decoded UTF-8 bytes of an em dash (U+00E2, U+20AC, U+201D), and a space. The job index tags every line and changes nothing else. |
| Lines.GenerateSectionHeader | src/lineGenerator.py:100-122 | The section-header method builds the section header. |
| Lines.SectionHeaderShape | src/lineGenerator.py:100-122 | One line for a job's first section, two otherwise with a small gap first; the title last at the subtitle size; none required. |
| Lines.PointLineOf | src/lineGenerator.py:124-133 | Specification of `generatePointLine`. Lines.ExperienceLineTexts states its properties. |
| Lines.KeywordsLineOf | src/lineGenerator.py:135-144 | Specification of `generateKeywordsLine`. Lines.ExperienceLineTexts states its properties. |
| Lines.LinksLineOf | src/lineGenerator.py:146-156 | Specification of `generateLinksLine`. Lines.LinkTexts and Lines.ExperienceLineTexts state its properties. |
| Lines.LinkTexts | src/lineGenerator.py:147 | One "descriptor: link" text per entry. |
| Lines.ExperienceLineTexts | src/lineGenerator.py:124-156 | A point line is "- " and the point; a keywords line is "Technologies Used: " and the combined keywords; neither is required; one link gives its own text. |
| Lines.GenerateEducationLines | src/lineGenerator.py:158-195 | The education method builds the education lines. |
| Lines.EducationLinesShape | src/lineGenerator.py:158-195 | All required: seven lines, plus one exactly for a non-empty concentration and one exactly for a graduation, which reads "Graduated: " exactly when the degree is complete. |
| Lines.GenerateAllRequiredLines | src/lineGenerator.py:200-206 | The method builds the contact, skills-header, experience-header and education lines in order. |
| Lines.AllRequiredShape | src/lineGenerator.py:200-206 | All required lines are required: 14 plus the optional concentration and graduation, the name first. |
| Lines.LineHeight | src/lineGenerator.py:197-198 | Specification of `calculateHeight`: the height of the line's text at its size. |
| Lines.TotalHeight | src/lineGenerator.py:208-209 | Specification of `calculateTotalHeight`: the sum of the lines' heights. Lines.TotalHeightAppend and Lines.TotalHeightSized state its properties. |
| Lines.TotalHeightAppend | src/lineGenerator.py:208-209 | The total height of lines put together is the sum of their totals. |
| Lines.Sized | src/lineGenerator.py:197-198 | Each line's text and size, in order. |
| Lines.TotalHeightSized | src/lineGenerator.py:208-209 | The generator's total height is the height the ranker sums for the same texts and sizes. |
| Lines.RequiredLinesAgree | src/lineGenerator.py:200-206 | Where the ranker's required lines succeed, the generator's carry the same texts and sizes. On empty honors or courses, where the ranker fails, the generator writes "Honors: " and "Relevant Courses: ". |
| Links.DefaultAlias | src/linkHandler.py:24-31 | Specification of the alias `__post_init__` settles. Links.DefaultAliasRestores states its properties. |
| Links.IsPhone | src/linkHandler.py:44 | Specification of the phone pattern matched in full: an optional `+` with one or two digits and an optional space, three digits optionally in parentheses, a space, dot or dash, three digits, a space, dot or dash, four digits. Links.PhoneMatchExample exhibits a match. |
| Links.FormatUrl | src/linkHandler.py:39-51 | Specification of `set_formatted_url`'s new URL. Links.FormatUrlFacts states its properties. |
| Links.DefaultAliasRestores | src/linkHandler.py:24-31 | Without an alias, the alias is the URL less a leading `mailto:` or `tel:`, so putting the prefix back gives the URL. |
| Links.Digits | src/linkHandler.py:45 | The digit filter keeps only digits and never lengthens the text. |
| Links.FormatUrlFacts | src/linkHandler.py:39-51 | A URL with a scheme is unchanged; an address gets `mailto:`, a phone number `tel:` and its digits less a leading 1 of eleven, anything else `https://`; the result has a scheme, so formatting again changes nothing. |
| Links.PhoneMatchExample | src/linkHandler.py:44 | "+1 (555) 123-4567" matches the phone pattern. |
| Links.PhoneExample | src/linkHandler.py:44-49 | "+1 (555) 123-4567" becomes `tel:` with its dialled digits. |
| Links.Link.constructor | src/linkHandler.py:24-33 | The alias is settled from the URL as given, then the URL is formatted. |
| Links.Link.SetFormattedUrl | src/linkHandler.py:39-51 | The URL becomes its formatted form, and nothing else changes. |
| Links.Link.DisplayText | src/linkHandler.py:35-37 | Specification of `Link.get_display_text`. Links.LinkText states its properties. |
| Links.LinkText | src/linkHandler.py:35-37 | A link's text is its descriptor, ": " and its alias. |
| Links.FromDict | src/linkHandler.py:53-60 | A fresh link with the entry's descriptor, formatted URL and settled alias. |
| Links.Texts | src/linkHandler.py:82 | One display text per link, in order. |
| Links.LinkCollection.constructor | src/linkHandler.py:62-69 | An empty collection with the given separator, by default a vertical bar between spaces. |
| Links.LinkCollection.AddLink | src/linkHandler.py:71-75 | Appends one fresh link, leaves the earlier links and the separator unchanged, and returns the same collection. |
| Links.LinkCollection.DisplayText | src/linkHandler.py:77-83 | An empty collection displays "". |
| Links.CollectionText | src/linkHandler.py:77-83 | One link displays its own text; n links display all their texts with n - 1 separators. |
| Links.FromList | src/linkHandler.py:85-91 | A fresh collection with the given separator (by default a vertical bar between spaces) and one fresh link per entry, in order. |
| Links.LinkRun | src/linkHandler.py:111-120 | Specification of `format_for_docx`: the prefix "descriptor: ", the alias (always settled, so `alias or ""` is the alias) and the URL. Links.FormatCollection states where each link's run lies. |
| Links.FormatCollection | src/linkHandler.py:122-135 | No links give no runs; n links give 2n - 1 runs, separator runs exactly at the odd positions and link i's run at position 2i. |

## Left out

- Relevance scoring (`encode`, `analyze`, sentence embeddings and cosine similarity) is left out; the similarities are an input sequence of reals.
- Font files are not read: the cmap and hmtx tables are a map from code point to advance width.
- The float arithmetic of sizes and widths (`1.15`, `/ 72`, `int(...)`) is exact rational arithmetic with floor. The knapsack table holds exact reals, not float32.
- YAML loading, `print` and the `rank` driver are left out. `exit()` is the `Exit` fault.
- The document is a typed record, so a missing key (a KeyError in the source) is not modelled.
- Knapsack.BestIsOptimal: holds only for positive weights, because column 0 of the table is never filled; Knapsack.ZeroWeightShortfall shows a zero-weight item lost.
- Knapsack.Solve: the capacity is a natural number; a negative capacity is not modelled, because every caller guards it (src/ranker.py:228, 333, 367).
- Selector.PrunePoints: requires each point to carry its job and section and a similarity at its index. The source would raise KeyError or IndexError otherwise. A batch from `makeBatch` meets the requirement (Selector.BatchLocated).
- Pruners.PruneKeywords: the iteration order of the set of accounted sections is an input sequence, because Python's set order is not part of the program. It requires each keyword to carry its section and a similarity at its index. The source would raise KeyError or IndexError otherwise (src/ranker.py:326, 329). A batch from `makeBatch` meets the requirement (Pruners.BatchScored).
- Pruners.PruneSkills: requires a similarity at each skill's index. The source would raise IndexError otherwise (src/ranker.py:363). A batch from `makeBatch` meets the requirement (Pruners.BatchScored).
- Links.IsPhone reads `\d` as the ASCII digits and `\s` as the characters `str.isspace` accepts. Python's `re` also takes other Unicode decimal digits for `\d`.
- Links.PhoneExample: states the result through the digit filter; the literal digits "5551234567" are not computed.
- The job posting of ranker.py is a parameter, not the hard-coded text.
- LineGenerator's font is a parameter of the height functions, not a field.
- `LinkCollection.__bool__`, `__len__` and `__iter__` are left out. They only expose the links list, which is a field of the class.
- src/format.py, src/validator.py, main.py, resublox.py and the helpers are not part of this model.
