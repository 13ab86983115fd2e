/** The item catalog: `makeBatch` in src/ranker.py flattens the document
    into one list of scorable texts, skills first, then for every job and
    section its points and then its keywords, and last the job posting.
    Each item records its position in the list as its index. */
module Catalog {
  import opened Text
  import opened Core
  import opened Resume

  function SkillItem(font: FontMetrics, s: string): ProcessedItem
  {
    ProcessedItem(s, 0, 0, Width(font, s, REGULAR), SKILL, NoMetadata)
  }

  /** A point's line height is that of its rendered bullet line "- text". */
  function PointItem(font: FontMetrics, j: nat, s: nat, p: nat, text: string): ProcessedItem
  {
    ProcessedItem(text, 0, Height(font, "- " + text, REGULAR), 0, POINT, PointOf(j, s, p))
  }

  function KeywordItem(font: FontMetrics, j: nat, s: nat, k: nat, text: string): ProcessedItem
  {
    ProcessedItem(text, 0, 0, Width(font, text, REGULAR), KEYWORD, KeywordOf(j, s, k))
  }

  function PostingItem(text: string): ProcessedItem
  {
    ProcessedItem(text, 0, 0, 0, JOB_POSTING, NoMetadata)
  }

  // ---- the catalog, before positions are assigned ----

  function SkillItems(font: FontMetrics, skills: seq<string>, n: nat): seq<ProcessedItem>
    requires n <= |skills|
  {
    if n == 0 then [] else SkillItems(font, skills, n - 1) + [SkillItem(font, skills[n - 1])]
  }

  function PointItems(font: FontMetrics, j: nat, s: nat, points: seq<string>, n: nat): seq<ProcessedItem>
    requires n <= |points|
  {
    if n == 0 then [] else PointItems(font, j, s, points, n - 1) + [PointItem(font, j, s, n - 1, points[n - 1])]
  }

  function KeywordItems(font: FontMetrics, j: nat, s: nat, keywords: seq<string>, n: nat): seq<ProcessedItem>
    requires n <= |keywords|
  {
    if n == 0 then [] else KeywordItems(font, j, s, keywords, n - 1) + [KeywordItem(font, j, s, n - 1, keywords[n - 1])]
  }

  /** The items of one section: its points, then its keywords. */
  function SectionItems(font: FontMetrics, j: nat, s: nat, section: Section): seq<ProcessedItem>
  {
    PointItems(font, j, s, section.points, |section.points|)
      + KeywordItems(font, j, s, section.keywords, |section.keywords|)
  }

  /** The items of the first n sections of job j. */
  function SectionsItems(font: FontMetrics, j: nat, sections: seq<Section>, n: nat): seq<ProcessedItem>
    requires n <= |sections|
  {
    if n == 0 then [] else SectionsItems(font, j, sections, n - 1) + SectionItems(font, j, n - 1, sections[n - 1])
  }

  /** The items of the first n jobs. */
  function JobsItems(font: FontMetrics, jobs: seq<Job>, n: nat): seq<ProcessedItem>
    requires n <= |jobs|
  {
    if n == 0 then []
    else JobsItems(font, jobs, n - 1) + SectionsItems(font, n - 1, jobs[n - 1].sections, |jobs[n - 1].sections|)
  }

  /** Every item with its position as its index. */
  function Indexed(items: seq<ProcessedItem>): (r: seq<ProcessedItem>)
    ensures |r| == |items|
  {
    seq(|items|, k requires 0 <= k < |items| => items[k].(index := k))
  }

  /** The batch `makeBatch` produces, as a function of the document. */
  function Batch(font: FontMetrics, content: Content, jobPosting: string): seq<ProcessedItem>
  {
    var skills := content.skills.list;
    var jobs := content.experience.jobs;
    Indexed(SkillItems(font, skills, |skills|) + JobsItems(font, jobs, |jobs|) + [PostingItem(jobPosting)])
  }

  /** The texts of the items, in order. */
  function Texts(items: seq<ProcessedItem>): (r: seq<string>)
    ensures |r| == |items|
  {
    seq(|items|, k requires 0 <= k < |items| => items[k].text)
  }

  lemma TextsSnoc(items: seq<ProcessedItem>, item: ProcessedItem)
    ensures Texts(items + [item]) == Texts(items) + [item.text]
  {
  }

  lemma IndexedSnoc(items: seq<ProcessedItem>, item: ProcessedItem)
    ensures Indexed(items + [item]) == Indexed(items) + [item.(index := |items|)]
  {
  }

  /** The first half of `makeBatch`'s loop over one section: appends the
      section's points, each under the next position and measured by the
      height of its bullet line. */
  method AppendPoints(font: FontMetrics, jIdx: nat, sIdx: nat, points: seq<string>,
                      batchIn0: seq<string>, processedItems0: seq<ProcessedItem>, ghost done0: seq<ProcessedItem>)
    returns (batchIn: seq<string>, processedItems: seq<ProcessedItem>)
    requires processedItems0 == Indexed(done0) && batchIn0 == Texts(done0)
    ensures processedItems == Indexed(done0 + PointItems(font, jIdx, sIdx, points, |points|))
    ensures batchIn == Texts(done0 + PointItems(font, jIdx, sIdx, points, |points|))
  {
    batchIn, processedItems := batchIn0, processedItems0;
    var rootIdx := |processedItems|;
    ghost var done := done0;
    var pIdx := 0;
    while pIdx < |points|
      invariant 0 <= pIdx <= |points|
      invariant done == done0 + PointItems(font, jIdx, sIdx, points, pIdx)
      invariant processedItems == Indexed(done) && rootIdx == |done|
      invariant batchIn == Texts(done)
    {
      var p := points[pIdx];
      var lineHeight := Height(font, "- " + p, REGULAR);
      batchIn := batchIn + [p];
      IndexedSnoc(done, PointItem(font, jIdx, sIdx, pIdx, p));
      TextsSnoc(done, PointItem(font, jIdx, sIdx, pIdx, p));
      processedItems := processedItems + [ProcessedItem(p, rootIdx, lineHeight, 0, POINT, PointOf(jIdx, sIdx, pIdx))];
      done := done + [PointItem(font, jIdx, sIdx, pIdx, p)];
      rootIdx := rootIdx + 1;
      pIdx := pIdx + 1;
    }
  }

  /** The second half of `makeBatch`'s loop over one section: appends the
      section's keywords, each under the next position and measured by its
      width. */
  method AppendKeywords(font: FontMetrics, jIdx: nat, sIdx: nat, keywords: seq<string>,
                        batchIn0: seq<string>, processedItems0: seq<ProcessedItem>, ghost done0: seq<ProcessedItem>)
    returns (batchIn: seq<string>, processedItems: seq<ProcessedItem>)
    requires processedItems0 == Indexed(done0) && batchIn0 == Texts(done0)
    ensures processedItems == Indexed(done0 + KeywordItems(font, jIdx, sIdx, keywords, |keywords|))
    ensures batchIn == Texts(done0 + KeywordItems(font, jIdx, sIdx, keywords, |keywords|))
  {
    batchIn, processedItems := batchIn0, processedItems0;
    var rootIdx := |processedItems|;
    ghost var done := done0;
    var kIdx := 0;
    while kIdx < |keywords|
      invariant 0 <= kIdx <= |keywords|
      invariant done == done0 + KeywordItems(font, jIdx, sIdx, keywords, kIdx)
      invariant processedItems == Indexed(done) && rootIdx == |done|
      invariant batchIn == Texts(done)
    {
      var k := keywords[kIdx];
      var lineWidth := GetWidth(font, k, REGULAR);
      batchIn := batchIn + [k];
      IndexedSnoc(done, KeywordItem(font, jIdx, sIdx, kIdx, k));
      TextsSnoc(done, KeywordItem(font, jIdx, sIdx, kIdx, k));
      processedItems := processedItems + [ProcessedItem(k, rootIdx, 0, lineWidth, KEYWORD, KeywordOf(jIdx, sIdx, kIdx))];
      done := done + [KeywordItem(font, jIdx, sIdx, kIdx, k)];
      rootIdx := rootIdx + 1;
      kIdx := kIdx + 1;
    }
  }

  /** The body of `makeBatch`'s loop over one section: its points, then its
      keywords. */
  method AppendSection(font: FontMetrics, jIdx: nat, sIdx: nat, section: Section,
                       batchIn0: seq<string>, processedItems0: seq<ProcessedItem>, ghost done0: seq<ProcessedItem>)
    returns (batchIn: seq<string>, processedItems: seq<ProcessedItem>)
    requires processedItems0 == Indexed(done0) && batchIn0 == Texts(done0)
    ensures processedItems == Indexed(done0 + SectionItems(font, jIdx, sIdx, section))
    ensures batchIn == Texts(done0 + SectionItems(font, jIdx, sIdx, section))
  {
    var points, keywords := section.points, section.keywords;
    batchIn, processedItems := AppendPoints(font, jIdx, sIdx, points, batchIn0, processedItems0, done0);
    ghost var pointPart := done0 + PointItems(font, jIdx, sIdx, points, |points|);
    batchIn, processedItems := AppendKeywords(font, jIdx, sIdx, keywords, batchIn, processedItems, pointPart);
    assert pointPart + KeywordItems(font, jIdx, sIdx, keywords, |keywords|) == done0 + SectionItems(font, jIdx, sIdx, section);
  }

  /** Position k of the texts is the text of the k-th indexed item. */
  lemma IndexedTexts(items: seq<ProcessedItem>)
    ensures forall k :: 0 <= k < |items| ==> Texts(items)[k] == Indexed(items)[k].text
  {
  }

  /** `makeBatch`'s loop over the jobs, each job's sections in order. */
  method AppendJobs(font: FontMetrics, jobs: seq<Job>,
                    batchIn0: seq<string>, processedItems0: seq<ProcessedItem>, ghost done0: seq<ProcessedItem>)
    returns (batchIn: seq<string>, processedItems: seq<ProcessedItem>)
    requires processedItems0 == Indexed(done0) && batchIn0 == Texts(done0)
    ensures processedItems == Indexed(done0 + JobsItems(font, jobs, |jobs|))
    ensures batchIn == Texts(done0 + JobsItems(font, jobs, |jobs|))
  {
    batchIn, processedItems := batchIn0, processedItems0;
    var jIdx := 0;
    while jIdx < |jobs|
      invariant 0 <= jIdx <= |jobs|
      invariant processedItems == Indexed(done0 + JobsItems(font, jobs, jIdx))
      invariant batchIn == Texts(done0 + JobsItems(font, jobs, jIdx))
    {
      ghost var before := done0 + JobsItems(font, jobs, jIdx);
      var sections := jobs[jIdx].sections;
      batchIn, processedItems := AppendJob(font, jIdx, sections, batchIn, processedItems, before);
      assert JobsItems(font, jobs, jIdx + 1) == JobsItems(font, jobs, jIdx) + SectionsItems(font, jIdx, sections, |sections|);
      assert before + SectionsItems(font, jIdx, sections, |sections|) == done0 + JobsItems(font, jobs, jIdx + 1);
      jIdx := jIdx + 1;
    }
  }

  /** `makeBatch`'s loop over the skills: one item per skill, measured by
      its width. */
  method AppendSkills(font: FontMetrics, skills: seq<string>)
    returns (batchIn: seq<string>, processedItems: seq<ProcessedItem>)
    ensures processedItems == Indexed(SkillItems(font, skills, |skills|))
    ensures batchIn == Texts(SkillItems(font, skills, |skills|))
  {
    batchIn, processedItems := [], [];
    var rootIdx := 0;
    ghost var done: seq<ProcessedItem> := [];
    var i := 0;
    while i < |skills|
      invariant 0 <= i <= |skills|
      invariant done == SkillItems(font, skills, i)
      invariant processedItems == Indexed(done) && rootIdx == |done|
      invariant batchIn == Texts(done)
    {
      var s := skills[i];
      var lineWidth := GetWidth(font, s, REGULAR);
      batchIn := batchIn + [s];
      IndexedSnoc(done, SkillItem(font, s));
      TextsSnoc(done, SkillItem(font, s));
      processedItems := processedItems + [ProcessedItem(s, rootIdx, 0, lineWidth, SKILL, NoMetadata)];
      assert SkillItems(font, skills, i + 1) == SkillItems(font, skills, i) + [SkillItem(font, s)];
      done := done + [SkillItem(font, s)];
      rootIdx := rootIdx + 1;
      i := i + 1;
    }
  }

  /** The body of `makeBatch`'s loop over one job: appends each section's
      items in turn. */
  method AppendJob(font: FontMetrics, jIdx: nat, sections: seq<Section>,
                   batchIn0: seq<string>, processedItems0: seq<ProcessedItem>, ghost done0: seq<ProcessedItem>)
    returns (batchIn: seq<string>, processedItems: seq<ProcessedItem>)
    requires processedItems0 == Indexed(done0) && batchIn0 == Texts(done0)
    ensures processedItems == Indexed(done0 + SectionsItems(font, jIdx, sections, |sections|))
    ensures batchIn == Texts(done0 + SectionsItems(font, jIdx, sections, |sections|))
  {
    batchIn, processedItems := batchIn0, processedItems0;
    var sIdx := 0;
    while sIdx < |sections|
      invariant 0 <= sIdx <= |sections|
      invariant processedItems == Indexed(done0 + SectionsItems(font, jIdx, sections, sIdx))
      invariant batchIn == Texts(done0 + SectionsItems(font, jIdx, sections, sIdx))
    {
      ghost var before := done0 + SectionsItems(font, jIdx, sections, sIdx);
      batchIn, processedItems := AppendSection(font, jIdx, sIdx, sections[sIdx], batchIn, processedItems, before);
      assert before + SectionItems(font, jIdx, sIdx, sections[sIdx]) == done0 + SectionsItems(font, jIdx, sections, sIdx + 1);
      sIdx := sIdx + 1;
    }
  }

  /** `makeBatch`: appends every text to `batchIn` and a matching item to
      `processedItems` under a running position counter. */
  method MakeBatch(font: FontMetrics, content: Content, jobPosting: string)
    returns (batchIn: seq<string>, processedItems: seq<ProcessedItem>)
    ensures processedItems == Batch(font, content, jobPosting)
    ensures |batchIn| == |processedItems|
    ensures forall i :: 0 <= i < |batchIn| ==> batchIn[i] == processedItems[i].text
  {
    batchIn, processedItems := [], [];
    var rootIdx := 0;

    var skills := content.skills.list;
    if |skills| > 0 {
      batchIn, processedItems := AppendSkills(font, skills);
    }
    ghost var done := SkillItems(font, skills, |skills|);
    rootIdx := |processedItems|;

    var jobs := content.experience.jobs;
    batchIn, processedItems := AppendJobs(font, jobs, batchIn, processedItems, done);
    done := done + JobsItems(font, jobs, |jobs|);
    rootIdx := |processedItems|;

    batchIn := batchIn + [jobPosting];
    IndexedSnoc(done, PostingItem(jobPosting));
    TextsSnoc(done, PostingItem(jobPosting));
    processedItems := processedItems + [ProcessedItem(jobPosting, rootIdx, 0, 0, JOB_POSTING, NoMetadata)];
    done := done + [PostingItem(jobPosting)];
    IndexedTexts(done);
  }

  // ---- what the batch holds ----

  /** An item names, through its metadata, the point or keyword of `jobs`
      it was made from, and carries that text. */
  predicate Traces(jobs: seq<Job>, item: ProcessedItem)
  {
    match item.metadata
    case PointOf(j, s, p) =>
      item.itemType == POINT && j < |jobs| && s < |jobs[j].sections|
      && p < |jobs[j].sections[s].points| && item.text == jobs[j].sections[s].points[p]
    case KeywordOf(j, s, k) =>
      item.itemType == KEYWORD && j < |jobs| && s < |jobs[j].sections|
      && k < |jobs[j].sections[s].keywords| && item.text == jobs[j].sections[s].keywords[k]
    case NoMetadata => false
  }

  /** The document position of a point or keyword: job, section, points
      (0) before keywords (1), position in its list. */
  function JobOf(m: Metadata): nat
  {
    match m
    case PointOf(j, _, _) => j
    case KeywordOf(j, _, _) => j
    case NoMetadata => 0
  }

  function SectionOf(m: Metadata): nat
  {
    match m
    case PointOf(_, s, _) => s
    case KeywordOf(_, s, _) => s
    case NoMetadata => 0
  }

  function KindOf(m: Metadata): nat
  {
    if m.KeywordOf? then 1 else 0
  }

  function PosOf(m: Metadata): nat
  {
    match m
    case PointOf(_, _, p) => p
    case KeywordOf(_, _, k) => k
    case NoMetadata => 0
  }

  /** Item a comes strictly before item b in document order. */
  predicate Before(a: ProcessedItem, b: ProcessedItem)
  {
    var x, y := a.metadata, b.metadata;
    JobOf(x) < JobOf(y)
    || (JobOf(x) == JobOf(y) && SectionOf(x) < SectionOf(y))
    || (JobOf(x) == JobOf(y) && SectionOf(x) == SectionOf(y) && KindOf(x) < KindOf(y))
    || (JobOf(x) == JobOf(y) && SectionOf(x) == SectionOf(y) && KindOf(x) == KindOf(y) && PosOf(x) < PosOf(y))
  }

  predicate InDocumentOrder(items: seq<ProcessedItem>)
  {
    forall i, k :: 0 <= i < k < |items| ==> Before(items[i], items[k])
  }

  lemma OrderAppend(a: seq<ProcessedItem>, b: seq<ProcessedItem>)
    requires InDocumentOrder(a) && InDocumentOrder(b)
    requires forall x, y :: x in a && y in b ==> Before(x, y)
    ensures InDocumentOrder(a + b)
  {
    forall i, k | 0 <= i < k < |a + b|
      ensures Before((a + b)[i], (a + b)[k])
    {
      if k < |a| {
        assert (a + b)[i] == a[i] && (a + b)[k] == a[k];
      } else if i >= |a| {
        assert (a + b)[i] == b[i - |a|] && (a + b)[k] == b[k - |a|];
      } else {
        assert (a + b)[i] == a[i] && (a + b)[k] == b[k - |a|];
      }
    }
  }

  lemma {:induction false} SkillItemsAt(font: FontMetrics, skills: seq<string>, n: nat)
    requires n <= |skills|
    ensures |SkillItems(font, skills, n)| == n
    ensures forall k :: 0 <= k < n ==> SkillItems(font, skills, n)[k] == SkillItem(font, skills[k])
  {
    if n > 0 {
      SkillItemsAt(font, skills, n - 1);
    }
  }

  lemma {:induction false} PointItemsAt(font: FontMetrics, j: nat, s: nat, points: seq<string>, n: nat)
    requires n <= |points|
    ensures |PointItems(font, j, s, points, n)| == n
    ensures forall k :: 0 <= k < n ==> PointItems(font, j, s, points, n)[k] == PointItem(font, j, s, k, points[k])
  {
    if n > 0 {
      PointItemsAt(font, j, s, points, n - 1);
    }
  }

  lemma {:induction false} KeywordItemsAt(font: FontMetrics, j: nat, s: nat, keywords: seq<string>, n: nat)
    requires n <= |keywords|
    ensures |KeywordItems(font, j, s, keywords, n)| == n
    ensures forall k :: 0 <= k < n ==> KeywordItems(font, j, s, keywords, n)[k] == KeywordItem(font, j, s, k, keywords[k])
  {
    if n > 0 {
      KeywordItemsAt(font, j, s, keywords, n - 1);
    }
  }

  /** A section's points sit in its job and section, in list order. */
  lemma PointsPlace(font: FontMetrics, j: nat, s: nat, points: seq<string>)
    ensures var ps := PointItems(font, j, s, points, |points|);
      && (forall x :: x in ps ==> JobOf(x.metadata) == j && SectionOf(x.metadata) == s && KindOf(x.metadata) == 0)
      && InDocumentOrder(ps)
  {
    var ps := PointItems(font, j, s, points, |points|);
    PointItemsAt(font, j, s, points, |points|);
    forall x | x in ps
      ensures JobOf(x.metadata) == j && SectionOf(x.metadata) == s && KindOf(x.metadata) == 0
    {
      var k :| 0 <= k < |ps| && ps[k] == x;
    }
  }

  /** A section's keywords sit in its job and section, in list order. */
  lemma KeywordsPlace(font: FontMetrics, j: nat, s: nat, keywords: seq<string>)
    ensures var ks := KeywordItems(font, j, s, keywords, |keywords|);
      && (forall x :: x in ks ==> JobOf(x.metadata) == j && SectionOf(x.metadata) == s && KindOf(x.metadata) == 1)
      && InDocumentOrder(ks)
  {
    var ks := KeywordItems(font, j, s, keywords, |keywords|);
    KeywordItemsAt(font, j, s, keywords, |keywords|);
    forall x | x in ks
      ensures JobOf(x.metadata) == j && SectionOf(x.metadata) == s && KindOf(x.metadata) == 1
    {
      var k :| 0 <= k < |ks| && ks[k] == x;
    }
  }

  /** A section's items sit in its job and section, points before
      keywords, each list in order. */
  lemma SectionPlace(font: FontMetrics, j: nat, s: nat, section: Section)
    ensures forall x :: x in SectionItems(font, j, s, section) ==> JobOf(x.metadata) == j && SectionOf(x.metadata) == s
    ensures InDocumentOrder(SectionItems(font, j, s, section))
  {
    PointsPlace(font, j, s, section.points);
    KeywordsPlace(font, j, s, section.keywords);
    OrderAppend(PointItems(font, j, s, section.points, |section.points|),
                KeywordItems(font, j, s, section.keywords, |section.keywords|));
  }

  /** A section's items are made from its points and keywords, and carry
      their texts. */
  lemma SectionTrace(font: FontMetrics, jobs: seq<Job>, j: nat, s: nat)
    requires j < |jobs| && s < |jobs[j].sections|
    ensures forall x :: x in SectionItems(font, j, s, jobs[j].sections[s]) ==> Traces(jobs, x)
  {
    var section := jobs[j].sections[s];
    var ps := PointItems(font, j, s, section.points, |section.points|);
    var ks := KeywordItems(font, j, s, section.keywords, |section.keywords|);
    PointItemsAt(font, j, s, section.points, |section.points|);
    KeywordItemsAt(font, j, s, section.keywords, |section.keywords|);
    forall x | x in ps ensures Traces(jobs, x) {
      var k :| 0 <= k < |ps| && ps[k] == x;
    }
    forall x | x in ks ensures Traces(jobs, x) {
      var k :| 0 <= k < |ks| && ks[k] == x;
    }
  }

  /** The items of the first n sections of job j sit in that job and those
      sections, in document order. */
  lemma {:induction false} SectionsPlace(font: FontMetrics, j: nat, sections: seq<Section>, n: nat)
    requires n <= |sections|
    ensures forall x :: x in SectionsItems(font, j, sections, n) ==> JobOf(x.metadata) == j && SectionOf(x.metadata) < n
    ensures InDocumentOrder(SectionsItems(font, j, sections, n))
  {
    if n > 0 {
      SectionsPlace(font, j, sections, n - 1);
      SectionPlace(font, j, n - 1, sections[n - 1]);
      var a := SectionsItems(font, j, sections, n - 1);
      var b := SectionItems(font, j, n - 1, sections[n - 1]);
      OrderAppend(a, b);
      assert SectionsItems(font, j, sections, n) == a + b;
    }
  }

  /** The items of the first n sections of job j trace back to them. */
  lemma {:induction false} SectionsTrace(font: FontMetrics, jobs: seq<Job>, j: nat, n: nat)
    requires j < |jobs| && n <= |jobs[j].sections|
    ensures forall x :: x in SectionsItems(font, j, jobs[j].sections, n) ==> Traces(jobs, x)
  {
    if n > 0 {
      var sections := jobs[j].sections;
      SectionsTrace(font, jobs, j, n - 1);
      SectionTrace(font, jobs, j, n - 1);
      assert SectionsItems(font, j, sections, n)
        == SectionsItems(font, j, sections, n - 1) + SectionItems(font, j, n - 1, sections[n - 1]);
    }
  }

  /** The items of the first n jobs sit in those jobs, in document order. */
  lemma {:induction false} JobsPlace(font: FontMetrics, jobs: seq<Job>, n: nat)
    requires n <= |jobs|
    ensures forall x :: x in JobsItems(font, jobs, n) ==> JobOf(x.metadata) < n
    ensures InDocumentOrder(JobsItems(font, jobs, n))
  {
    if n > 0 {
      JobsPlace(font, jobs, n - 1);
      var sections := jobs[n - 1].sections;
      SectionsPlace(font, n - 1, sections, |sections|);
      var a := JobsItems(font, jobs, n - 1);
      var b := SectionsItems(font, n - 1, sections, |sections|);
      OrderAppend(a, b);
      assert JobsItems(font, jobs, n) == a + b;
    }
  }

  /** The items of the first n jobs trace back to them. */
  lemma {:induction false} JobsTrace(font: FontMetrics, jobs: seq<Job>, n: nat)
    requires n <= |jobs|
    ensures forall x :: x in JobsItems(font, jobs, n) ==> Traces(jobs, x)
  {
    if n > 0 {
      JobsTrace(font, jobs, n - 1);
      var sections := jobs[n - 1].sections;
      SectionsTrace(font, jobs, n - 1, |sections|);
      assert JobsItems(font, jobs, n) == JobsItems(font, jobs, n - 1) + SectionsItems(font, n - 1, sections, |sections|);
    }
  }

  /** Every point and keyword of the jobs traces back to its text, and they
      come in document order. */
  lemma JobsFacts(font: FontMetrics, jobs: seq<Job>)
    ensures forall x :: x in JobsItems(font, jobs, |jobs|) ==> Traces(jobs, x)
    ensures InDocumentOrder(JobsItems(font, jobs, |jobs|))
  {
    JobsPlace(font, jobs, |jobs|);
    JobsTrace(font, jobs, |jobs|);
  }

  /** An item of section s of job j is among the items of the first n
      sections of that job, once s < n. */
  lemma {:induction false} SectionsHold(font: FontMetrics, j: nat, sections: seq<Section>, n: nat, s: nat, x: ProcessedItem)
    requires s < n <= |sections|
    requires x in SectionItems(font, j, s, sections[s])
    ensures x in SectionsItems(font, j, sections, n)
  {
    assert SectionsItems(font, j, sections, n)
      == SectionsItems(font, j, sections, n - 1) + SectionItems(font, j, n - 1, sections[n - 1]);
    if s < n - 1 {
      SectionsHold(font, j, sections, n - 1, s, x);
    }
  }

  /** An item of job j is among the items of the first n jobs, once j < n. */
  lemma {:induction false} JobsHold(font: FontMetrics, jobs: seq<Job>, n: nat, j: nat, x: ProcessedItem)
    requires j < n <= |jobs|
    requires x in SectionsItems(font, j, jobs[j].sections, |jobs[j].sections|)
    ensures x in JobsItems(font, jobs, n)
  {
    assert JobsItems(font, jobs, n)
      == JobsItems(font, jobs, n - 1) + SectionsItems(font, n - 1, jobs[n - 1].sections, |jobs[n - 1].sections|);
    if j < n - 1 {
      JobsHold(font, jobs, n - 1, j, x);
    }
  }

  /** Point p of section s of job j has its item among the jobs' items. */
  lemma PointHeld(font: FontMetrics, jobs: seq<Job>, j: nat, s: nat, p: nat)
    requires j < |jobs| && s < |jobs[j].sections| && p < |jobs[j].sections[s].points|
    ensures PointItem(font, j, s, p, jobs[j].sections[s].points[p]) in JobsItems(font, jobs, |jobs|)
  {
    var section := jobs[j].sections[s];
    var x := PointItem(font, j, s, p, section.points[p]);
    PointItemsAt(font, j, s, section.points, |section.points|);
    assert x == PointItems(font, j, s, section.points, |section.points|)[p];
    assert x in SectionItems(font, j, s, section);
    SectionsHold(font, j, jobs[j].sections, |jobs[j].sections|, s, x);
    JobsHold(font, jobs, |jobs|, j, x);
  }

  /** Keyword k of section s of job j has its item among the jobs' items. */
  lemma KeywordHeld(font: FontMetrics, jobs: seq<Job>, j: nat, s: nat, k: nat)
    requires j < |jobs| && s < |jobs[j].sections| && k < |jobs[j].sections[s].keywords|
    ensures KeywordItem(font, j, s, k, jobs[j].sections[s].keywords[k]) in JobsItems(font, jobs, |jobs|)
  {
    var section := jobs[j].sections[s];
    var x := KeywordItem(font, j, s, k, section.keywords[k]);
    KeywordItemsAt(font, j, s, section.keywords, |section.keywords|);
    var ps := PointItems(font, j, s, section.points, |section.points|);
    var ks := KeywordItems(font, j, s, section.keywords, |section.keywords|);
    assert x == ks[k];
    assert (ps + ks)[|ps| + k] == x;
    SectionsHold(font, j, jobs[j].sections, |jobs[j].sections|, s, x);
    JobsHold(font, jobs, |jobs|, j, x);
  }

  /** Where the parts of a concatenation land once positions are set. */
  lemma IndexedParts(ss: seq<ProcessedItem>, js: seq<ProcessedItem>, p: ProcessedItem)
    ensures |Indexed(ss + js + [p])| == |ss| + |js| + 1
    ensures forall i :: 0 <= i < |ss| ==> Indexed(ss + js + [p])[i] == ss[i].(index := i)
    ensures forall i :: |ss| <= i < |ss| + |js| ==> Indexed(ss + js + [p])[i] == js[i - |ss|].(index := i)
    ensures Indexed(ss + js + [p])[|ss| + |js|] == p.(index := |ss| + |js|)
  {
  }

  /** Every item of the batch records its own position as its index. */
  lemma BatchIndexed(font: FontMetrics, content: Content, jobPosting: string)
    ensures forall i :: 0 <= i < |Batch(font, content, jobPosting)| ==> Batch(font, content, jobPosting)[i].index == i
  {
  }

  /** The skills come first, in order. */
  lemma BatchSkillsFirst(font: FontMetrics, content: Content, jobPosting: string)
    ensures var b := Batch(font, content, jobPosting);
      && |b| > |content.skills.list|
      && (forall i :: 0 <= i < |content.skills.list| ==>
            b[i].itemType == SKILL && b[i].text == content.skills.list[i])
  {
    var skills := content.skills.list;
    var ss := SkillItems(font, skills, |skills|);
    var js := JobsItems(font, content.experience.jobs, |content.experience.jobs|);
    SkillItemsAt(font, skills, |skills|);
    IndexedParts(ss, js, PostingItem(jobPosting));
  }

  /** The job posting comes last, and is the only item of its type. */
  lemma BatchPostingLast(font: FontMetrics, content: Content, jobPosting: string)
    ensures var b := Batch(font, content, jobPosting);
      && |b| > 0
      && b[|b| - 1].itemType == JOB_POSTING && b[|b| - 1].text == jobPosting
      && (forall i :: 0 <= i < |b| - 1 ==> b[i].itemType != JOB_POSTING)
  {
    var skills := content.skills.list;
    var jobs := content.experience.jobs;
    var ss := SkillItems(font, skills, |skills|);
    var js := JobsItems(font, jobs, |jobs|);
    SkillItemsAt(font, skills, |skills|);
    JobsFacts(font, jobs);
    IndexedParts(ss, js, PostingItem(jobPosting));
    var b := Indexed(ss + js + [PostingItem(jobPosting)]);
    forall i | |ss| <= i < |b| - 1
      ensures b[i].itemType != JOB_POSTING
    {
      assert js[i - |ss|] in js;
    }
  }

  /** Some item strictly between position `first` and the last position
      carries metadata m. */
  predicate Holds(b: seq<ProcessedItem>, first: nat, m: Metadata)
  {
    exists i :: first <= i < |b| - 1 && b[i].metadata == m
  }

  /** An item of the jobs lands, with its metadata, between the skills and
      the posting. */
  lemma BatchHoldsItem(font: FontMetrics, content: Content, jobPosting: string, x: ProcessedItem)
    requires x in JobsItems(font, content.experience.jobs, |content.experience.jobs|)
    ensures Holds(Batch(font, content, jobPosting), |content.skills.list|, x.metadata)
  {
    var skills := content.skills.list;
    var ss := SkillItems(font, skills, |skills|);
    var js := JobsItems(font, content.experience.jobs, |content.experience.jobs|);
    var all := ss + js + [PostingItem(jobPosting)];
    SkillItemsAt(font, skills, |skills|);
    var m :| 0 <= m < |js| && js[m] == x;
    assert all[|ss| + m] == x;
    assert Batch(font, content, jobPosting)[|ss| + m] == x.(index := |ss| + m);
  }

  /** Every point and every keyword of the document has its item between
      the skills and the posting. */
  lemma BatchHolds(font: FontMetrics, content: Content, jobPosting: string)
    ensures var b := Batch(font, content, jobPosting);
      var jobs := content.experience.jobs;
      forall j: nat, s: nat, p: nat :: j < |jobs| && s < |jobs[j].sections| && p < |jobs[j].sections[s].points| ==>
        Holds(b, |content.skills.list|, PointOf(j, s, p))
    ensures var b := Batch(font, content, jobPosting);
      var jobs := content.experience.jobs;
      forall j: nat, s: nat, k: nat :: j < |jobs| && s < |jobs[j].sections| && k < |jobs[j].sections[s].keywords| ==>
        Holds(b, |content.skills.list|, KeywordOf(j, s, k))
  {
    var jobs := content.experience.jobs;
    forall j: nat, s: nat, p: nat | j < |jobs| && s < |jobs[j].sections| && p < |jobs[j].sections[s].points|
      ensures Holds(Batch(font, content, jobPosting), |content.skills.list|, PointOf(j, s, p))
    {
      PointHeld(font, jobs, j, s, p);
      BatchHoldsItem(font, content, jobPosting, PointItem(font, j, s, p, jobs[j].sections[s].points[p]));
    }
    forall j: nat, s: nat, k: nat | j < |jobs| && s < |jobs[j].sections| && k < |jobs[j].sections[s].keywords|
      ensures Holds(Batch(font, content, jobPosting), |content.skills.list|, KeywordOf(j, s, k))
    {
      KeywordHeld(font, jobs, j, s, k);
      BatchHoldsItem(font, content, jobPosting, KeywordItem(font, j, s, k, jobs[j].sections[s].keywords[k]));
    }
  }

  /** Between the skills and the posting: every point and keyword, each
      tracing back to its text, in document order (job by job, section
      by section, the points and then the keywords). Every point and every
      keyword of the document has its item there. */
  lemma BatchBody(font: FontMetrics, content: Content, jobPosting: string)
    ensures var b := Batch(font, content, jobPosting);
      var first := |content.skills.list|;
      && |b| > first
      && (forall i :: first <= i < |b| - 1 ==> Traces(content.experience.jobs, b[i]))
      && (forall i, k :: first <= i < k < |b| - 1 ==> Before(b[i], b[k]))
    ensures var b := Batch(font, content, jobPosting);
      var jobs := content.experience.jobs;
      forall j: nat, s: nat, p: nat :: j < |jobs| && s < |jobs[j].sections| && p < |jobs[j].sections[s].points| ==>
        Holds(b, |content.skills.list|, PointOf(j, s, p))
    ensures var b := Batch(font, content, jobPosting);
      var jobs := content.experience.jobs;
      forall j: nat, s: nat, k: nat :: j < |jobs| && s < |jobs[j].sections| && k < |jobs[j].sections[s].keywords| ==>
        Holds(b, |content.skills.list|, KeywordOf(j, s, k))
  {
    var skills := content.skills.list;
    var jobs := content.experience.jobs;
    var ss := SkillItems(font, skills, |skills|);
    var js := JobsItems(font, jobs, |jobs|);
    SkillItemsAt(font, skills, |skills|);
    JobsFacts(font, jobs);
    IndexedParts(ss, js, PostingItem(jobPosting));
    var b := Indexed(ss + js + [PostingItem(jobPosting)]);
    assert b == Batch(font, content, jobPosting);
    forall i | |ss| <= i < |b| - 1
      ensures Traces(jobs, b[i])
    {
      assert js[i - |ss|] in js;
    }
    forall i, k | |ss| <= i < k < |b| - 1
      ensures Before(b[i], b[k])
    {
      assert Before(js[i - |ss|], js[k - |ss|]);
    }
    BatchHolds(font, content, jobPosting);
  }
}
