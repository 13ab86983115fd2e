/** The older catalog builder: `makeBatch` in the top-level ranker.py lists
    the skills, then for every job and section its points, its keywords and
    one composite text joining both, and last the job posting. Beside the
    list it records a map of inclusive index ranges, so that the scores of
    each part can be found again. */
module LegacyBatch {
  import opened Wrappers
  import opened Text
  import opened Resume

  /** An inclusive range of positions; an empty part gives
      `end == start - 1`. */
  datatype Range = Range(start: int, end: int)

  datatype SectionRanges = SectionRanges(points: Range, keywords: Range, composite: int)

  datatype JobRanges = JobRanges(span: Range, sections: seq<SectionRanges>)

  /** The `batchMap` dictionary: `skills` stays None without skills. */
  datatype BatchMap = BatchMap(skills: Option<Range>, jobs: seq<JobRanges>, jobPosting: Range)

  // ---- the batch and its map, as functions of the document ----

  /** A section's composite text: its points and keywords joined by a space. */
  function Composite(section: Section): string
  {
    Join(section.points + section.keywords, " ")
  }

  function SectionTexts(section: Section): seq<string>
  {
    section.points + section.keywords + [Composite(section)]
  }

  /** The texts of the first `n` sections. */
  function SectionsTexts(sections: seq<Section>, n: nat): seq<string>
    requires n <= |sections|
  {
    if n == 0 then [] else SectionsTexts(sections, n - 1) + SectionTexts(sections[n - 1])
  }

  function JobTexts(job: Job): seq<string>
  {
    SectionsTexts(job.sections, |job.sections|)
  }

  /** The texts of the first `n` jobs. */
  function JobsTexts(jobs: seq<Job>, n: nat): seq<string>
    requires n <= |jobs|
  {
    if n == 0 then [] else JobsTexts(jobs, n - 1) + JobTexts(jobs[n - 1])
  }

  /** How many texts a section, the first `n` sections of a job, a job and
      the first `n` jobs add to the batch. */
  function SectionCount(section: Section): nat
  {
    |section.points| + |section.keywords| + 1
  }

  function SectionsCount(sections: seq<Section>, n: nat): nat
    requires n <= |sections|
  {
    if n == 0 then 0 else SectionsCount(sections, n - 1) + SectionCount(sections[n - 1])
  }

  function JobCount(job: Job): nat
  {
    SectionsCount(job.sections, |job.sections|)
  }

  function JobsCount(jobs: seq<Job>, n: nat): nat
    requires n <= |jobs|
  {
    if n == 0 then 0 else JobsCount(jobs, n - 1) + JobCount(jobs[n - 1])
  }

  /** The ranges of a section whose texts start at position `at`. */
  function SectionAt(section: Section, at: int): SectionRanges
  {
    var p, k := |section.points|, |section.keywords|;
    SectionRanges(Range(at, at + p - 1), Range(at + p, at + p + k - 1), at + p + k)
  }

  /** The ranges of the first `n` sections, the first starting at `at`. */
  function SectionsAt(sections: seq<Section>, at: int, n: nat): (r: seq<SectionRanges>)
    requires n <= |sections|
    ensures |r| == n
  {
    if n == 0 then []
    else SectionsAt(sections, at, n - 1) + [SectionAt(sections[n - 1], at + SectionsCount(sections, n - 1))]
  }

  function JobAt(job: Job, at: int): JobRanges
  {
    JobRanges(Range(at, at + JobCount(job) - 1), SectionsAt(job.sections, at, |job.sections|))
  }

  /** The ranges of the first `n` jobs, the first starting at `at`. */
  function JobsAt(jobs: seq<Job>, at: int, n: nat): (r: seq<JobRanges>)
    requires n <= |jobs|
    ensures |r| == n
  {
    if n == 0 then [] else JobsAt(jobs, at, n - 1) + [JobAt(jobs[n - 1], at + JobsCount(jobs, n - 1))]
  }

  function LegacyTexts(skills: seq<string>, jobs: seq<Job>, jobPosting: string): seq<string>
  {
    skills + JobsTexts(jobs, |jobs|) + [jobPosting]
  }

  function LegacyMap(skills: seq<string>, jobs: seq<Job>, jobPosting: string): BatchMap
  {
    var last := |skills| + JobsCount(jobs, |jobs|);
    BatchMap(if |skills| > 0 then Some(Range(0, |skills| - 1)) else None,
             JobsAt(jobs, |skills|, |jobs|),
             Range(last, last))
  }

  lemma {:induction false} SectionsLength(sections: seq<Section>, n: nat)
    requires n <= |sections|
    ensures |SectionsTexts(sections, n)| == SectionsCount(sections, n)
  {
    if n > 0 {
      SectionsLength(sections, n - 1);
    }
  }

  lemma {:induction false} JobsLength(jobs: seq<Job>, n: nat)
    requires n <= |jobs|
    ensures |JobsTexts(jobs, n)| == JobsCount(jobs, n)
  {
    if n > 0 {
      JobsLength(jobs, n - 1);
      SectionsLength(jobs[n - 1].sections, |jobs[n - 1].sections|);
    }
  }

  /** One more section: its texts follow the earlier ones. */
  lemma SectionsTextsSnoc(prefix: seq<string>, sections: seq<Section>, i: nat)
    requires i < |sections|
    ensures prefix + SectionsTexts(sections, i + 1) == (prefix + SectionsTexts(sections, i)) + SectionTexts(sections[i])
  {
  }

  /** One more section: its ranges follow the earlier ones. */
  lemma SectionsAtSnoc(sections: seq<Section>, at: int, i: nat, rs: seq<SectionRanges>, x: int, r: SectionRanges)
    requires i < |sections|
    requires rs == SectionsAt(sections, at, i) && x == at + SectionsCount(sections, i) && r == SectionAt(sections[i], x)
    ensures rs + [r] == SectionsAt(sections, at, i + 1)
  {
  }

  /** One more section: its entries add to the count. */
  lemma SectionsCountSnoc(sections: seq<Section>, i: nat)
    requires i < |sections|
    ensures SectionsCount(sections, i + 1) == SectionsCount(sections, i) + SectionCount(sections[i])
  {
  }

  /** One more job: its entries add to the count. */
  lemma JobsCountSnoc(jobs: seq<Job>, j: nat)
    requires j < |jobs|
    ensures JobsCount(jobs, j + 1) == JobsCount(jobs, j) + JobCount(jobs[j])
  {
  }

  /** One more job: its texts follow the earlier ones. */
  lemma JobsTextsSnoc(prefix: seq<string>, jobs: seq<Job>, j: nat)
    requires j < |jobs|
    ensures prefix + JobsTexts(jobs, j + 1) == (prefix + JobsTexts(jobs, j)) + JobTexts(jobs[j])
  {
  }

  /** One more job: its ranges follow the earlier ones. */
  lemma JobsAtSnoc(jobs: seq<Job>, at: int, j: nat, js: seq<JobRanges>, x: int, r: JobRanges)
    requires j < |jobs|
    requires js == JobsAt(jobs, at, j) && x == at + JobsCount(jobs, j) && r == JobAt(jobs[j], x)
    ensures js + [r] == JobsAt(jobs, at, j + 1)
  {
  }

  /** Appending section `i` to the first `i` sections' texts, count and
      ranges gives those of the first `i + 1`. */
  lemma SectionsStep(batchIn0: seq<string>, rootIdx0: int, sections: seq<Section>, i: nat,
                     b: seq<string>, r: int, rs: seq<SectionRanges>, b': seq<string>, r': int, sr: SectionRanges)
    requires i < |sections|
    requires b == batchIn0 + SectionsTexts(sections, i) && r == rootIdx0 + SectionsCount(sections, i)
    requires rs == SectionsAt(sections, rootIdx0, i)
    requires b' == b + SectionTexts(sections[i]) && r' == r + SectionCount(sections[i]) && sr == SectionAt(sections[i], r)
    ensures b' == batchIn0 + SectionsTexts(sections, i + 1)
    ensures r' == rootIdx0 + SectionsCount(sections, i + 1)
    ensures rs + [sr] == SectionsAt(sections, rootIdx0, i + 1)
  {
    SectionsTextsSnoc(batchIn0, sections, i);
    SectionsCountSnoc(sections, i);
    SectionsAtSnoc(sections, rootIdx0, i, rs, r, sr);
  }

  /** Appending job `j` to the first `j` jobs' texts, count and ranges
      gives those of the first `j + 1`. */
  lemma JobsStep(batchIn0: seq<string>, rootIdx0: int, jobs: seq<Job>, j: nat,
                 b: seq<string>, r: int, js: seq<JobRanges>, b': seq<string>, r': int, jr: JobRanges)
    requires j < |jobs|
    requires b == batchIn0 + JobsTexts(jobs, j) && r == rootIdx0 + JobsCount(jobs, j)
    requires js == JobsAt(jobs, rootIdx0, j)
    requires b' == b + JobTexts(jobs[j]) && r' == r + JobCount(jobs[j]) && jr == JobAt(jobs[j], r)
    ensures b' == batchIn0 + JobsTexts(jobs, j + 1)
    ensures r' == rootIdx0 + JobsCount(jobs, j + 1)
    ensures js + [jr] == JobsAt(jobs, rootIdx0, j + 1)
  {
    JobsTextsSnoc(batchIn0, jobs, j);
    JobsCountSnoc(jobs, j);
    JobsAtSnoc(jobs, rootIdx0, j, js, r, jr);
  }

  // ---- the builder ----

  /** One of `makeBatch`'s inner loops: appends every text and advances the
      position counter by one for each. */
  method AppendTexts(batchIn0: seq<string>, rootIdx0: int, texts: seq<string>)
    returns (batchIn: seq<string>, rootIdx: int)
    requires rootIdx0 == |batchIn0|
    ensures batchIn == batchIn0 + texts && rootIdx == |batchIn|
  {
    batchIn, rootIdx := batchIn0, rootIdx0;
    var i := 0;
    while i < |texts|
      invariant 0 <= i <= |texts|
      invariant batchIn == batchIn0 + texts[..i] && rootIdx == |batchIn|
    {
      assert texts[..i + 1] == texts[..i] + [texts[i]];
      batchIn := batchIn + [texts[i]];
      rootIdx := rootIdx + 1;
      i := i + 1;
    }
    assert texts[..i] == texts;
  }

  /** The body of `makeBatch`'s loop over one section. */
  method AppendSection(section: Section, batchIn0: seq<string>, rootIdx0: int)
    returns (batchIn: seq<string>, rootIdx: int, ranges: SectionRanges)
    requires rootIdx0 == |batchIn0|
    ensures batchIn == batchIn0 + SectionTexts(section) && rootIdx == |batchIn|
    ensures rootIdx == rootIdx0 + SectionCount(section)
    ensures ranges == SectionAt(section, rootIdx0)
  {
    var sectionStart := rootIdx0;
    var points := section.points;
    batchIn, rootIdx := AppendTexts(batchIn0, rootIdx0, points);
    var sectionEnd := rootIdx - 1;

    var keywordsStart := rootIdx;
    var keywords := section.keywords;
    batchIn, rootIdx := AppendTexts(batchIn, rootIdx, keywords);
    var keywordsEnd := rootIdx - 1;

    var composite := Join(points + keywords, " ");
    batchIn := batchIn + [composite];
    var compositeIdx := rootIdx;
    rootIdx := rootIdx + 1;

    ranges := SectionRanges(Range(sectionStart, sectionEnd), Range(keywordsStart, keywordsEnd), compositeIdx);
  }

  /** The body of `makeBatch`'s loop over one job: its sections in order,
      then the job's range. */
  method AppendJob(job: Job, batchIn0: seq<string>, rootIdx0: int)
    returns (batchIn: seq<string>, rootIdx: int, ranges: JobRanges)
    requires rootIdx0 == |batchIn0|
    ensures batchIn == batchIn0 + JobTexts(job) && rootIdx == |batchIn|
    ensures rootIdx == rootIdx0 + JobCount(job)
    ensures ranges == JobAt(job, rootIdx0)
  {
    var sections := job.sections;
    var sectionsMap: seq<SectionRanges> := [];
    var jobStart := rootIdx0;
    batchIn, rootIdx := batchIn0, rootIdx0;
    var i := 0;
    while i < |sections|
      invariant 0 <= i <= |sections|
      invariant batchIn == batchIn0 + SectionsTexts(sections, i) && rootIdx == |batchIn|
      invariant rootIdx == rootIdx0 + SectionsCount(sections, i)
      invariant sectionsMap == SectionsAt(sections, rootIdx0, i)
    {
      var sectionRanges;
      ghost var b, r := batchIn, rootIdx;
      batchIn, rootIdx, sectionRanges := AppendSection(sections[i], batchIn, rootIdx);
      SectionsStep(batchIn0, rootIdx0, sections, i, b, r, sectionsMap, batchIn, rootIdx, sectionRanges);
      sectionsMap := sectionsMap + [sectionRanges];
      i := i + 1;
    }
    var jobEnd := rootIdx - 1;
    ranges := JobRanges(Range(jobStart, jobEnd), sectionsMap);
  }

  /** `makeBatch`'s loop over the jobs: each job in order, its ranges
      collected in a list. */
  method AppendJobs(jobs: seq<Job>, batchIn0: seq<string>, rootIdx0: int)
    returns (batchIn: seq<string>, rootIdx: int, jobsMap: seq<JobRanges>)
    requires rootIdx0 == |batchIn0|
    ensures batchIn == batchIn0 + JobsTexts(jobs, |jobs|) && rootIdx == |batchIn|
    ensures rootIdx == rootIdx0 + JobsCount(jobs, |jobs|)
    ensures jobsMap == JobsAt(jobs, rootIdx0, |jobs|)
  {
    batchIn, rootIdx, jobsMap := batchIn0, rootIdx0, [];
    var j := 0;
    while j < |jobs|
      invariant 0 <= j <= |jobs|
      invariant batchIn == batchIn0 + JobsTexts(jobs, j) && rootIdx == |batchIn|
      invariant rootIdx == rootIdx0 + JobsCount(jobs, j)
      invariant jobsMap == JobsAt(jobs, rootIdx0, j)
    {
      var jobRanges;
      ghost var b, r := batchIn, rootIdx;
      batchIn, rootIdx, jobRanges := AppendJob(jobs[j], batchIn, rootIdx);
      JobsStep(batchIn0, rootIdx0, jobs, j, b, r, jobsMap, batchIn, rootIdx, jobRanges);
      jobsMap := jobsMap + [jobRanges];
      j := j + 1;
    }
  }

  /** `makeBatch` of ranker.py; the job posting, a constant of that file,
      is a parameter. */
  method MakeLegacyBatch(content: Content, jobPosting: string)
    returns (batchIn: seq<string>, batchMap: BatchMap)
    ensures batchIn == LegacyTexts(content.skills.list, content.experience.jobs, jobPosting)
    ensures batchMap == LegacyMap(content.skills.list, content.experience.jobs, jobPosting)
  {
    batchIn := [];
    var skillsRange: Option<Range> := None;
    var rootIdx := 0;

    var skills := content.skills.list;
    var jobs := content.experience.jobs;
    if |skills| > 0 {
      var skillsStart := rootIdx;
      batchIn, rootIdx := AppendTexts(batchIn, rootIdx, skills);
      var skillsEnd := rootIdx - 1;
      skillsRange := Some(Range(skillsStart, skillsEnd));
    }
    assert batchIn == skills && rootIdx == |skills|;
    assert skillsRange == LegacyMap(content.skills.list, content.experience.jobs, jobPosting).skills;

    var jobsMap;
    batchIn, rootIdx, jobsMap := AppendJobs(jobs, batchIn, rootIdx);

    batchIn := batchIn + [jobPosting];
    batchMap := BatchMap(skillsRange, jobsMap, Range(rootIdx, rootIdx));
  }

  // ---- what the map says about the batch ----

  /** The ranges `r` of section `s` fit together as `makeBatch` lays them
      out: keywords right after the points, the composite right after the
      keywords, each range as long as its list. */
  predicate Shaped(r: SectionRanges, s: Section)
  {
    && r.points.end == r.points.start + |s.points| - 1
    && r.keywords.start == r.points.end + 1
    && r.keywords.end == r.keywords.start + |s.keywords| - 1
    && r.composite == r.keywords.end + 1
  }

  /** The ranges `r` hold, in `b`, the points, the keywords and the
      composite text of section `s`. */
  predicate Holds(b: seq<string>, r: SectionRanges, s: Section)
    requires Shaped(r, s)
  {
    && 0 <= r.points.start && r.composite < |b|
    && b[r.points.start .. r.keywords.start] == s.points
    && b[r.keywords.start .. r.composite] == s.keywords
    && b[r.composite] == Composite(s)
  }

  /** `b` holds the texts `t` from position `x` on. */
  predicate Within(b: seq<string>, x: int, t: seq<string>)
  {
    0 <= x && x + |t| <= |b| && b[x..x + |t|] == t
  }

  lemma WithinBefore(b: seq<string>, post: seq<string>, x: int, t: seq<string>)
    requires Within(b, x, t)
    ensures Within(b + post, x, t)
  {
    assert (b + post)[x..x + |t|] == b[x..x + |t|];
  }

  lemma WithinAfter(pre: seq<string>, b: seq<string>, x: int, t: seq<string>)
    requires Within(b, x, t)
    ensures Within(pre + b, x + |pre|, t)
  {
    assert (pre + b)[x + |pre|..x + |pre| + |t|] == b[x..x + |t|];
  }

  lemma WithinSplit(b: seq<string>, x: int, u: seq<string>, v: seq<string>)
    requires Within(b, x, u + v)
    ensures Within(b, x, u) && Within(b, x + |u|, v)
  {
    assert b[x..x + |u|] == (u + v)[..|u|];
    assert b[x + |u|..x + |u| + |v|] == (u + v)[|u|..];
  }

  /** A section's texts, wherever they sit, are held by the ranges that
      start there. */
  lemma SectionHolds(b: seq<string>, r: SectionRanges, s: Section)
    requires Shaped(r, s) && Within(b, r.points.start, SectionTexts(s))
    ensures Holds(b, r, s)
  {
    var x := r.points.start;
    WithinSplit(b, x, s.points + s.keywords, [Composite(s)]);
    WithinSplit(b, x, s.points, s.keywords);
    assert b[r.composite..r.composite + 1][0] == b[r.composite];
  }

  /** Section `k` of the first `n`: its texts follow those of the sections
      before it. */
  lemma {:induction false} SectionWithin(sections: seq<Section>, n: nat, k: nat)
    requires k < n <= |sections|
    ensures Within(SectionsTexts(sections, n), SectionsCount(sections, k), SectionTexts(sections[k]))
  {
    var b0, t := SectionsTexts(sections, n - 1), SectionTexts(sections[n - 1]);
    SectionsLength(sections, n - 1);
    if k == n - 1 {
      assert Within(t, 0, t);
      WithinAfter(b0, t, 0, t);
    } else {
      SectionWithin(sections, n - 1, k);
      WithinBefore(b0, t, SectionsCount(sections, k), SectionTexts(sections[k]));
    }
  }

  /** Section `k` of the first `n` has the ranges of its own texts, placed
      right after the texts of the sections before it. */
  lemma {:induction false} SectionPlaced(sections: seq<Section>, at: int, n: nat, k: nat)
    requires k < n <= |sections|
    ensures SectionsAt(sections, at, n)[k] == SectionAt(sections[k], at + SectionsCount(sections, k))
  {
    if k < n - 1 {
      SectionPlaced(sections, at, n - 1, k);
    }
  }

  /** Texts held within the last job's texts are held within the jobs'
      texts, after those of the jobs before it. */
  lemma JobsWithinLast(jobs: seq<Job>, j: nat, y: int, s: seq<string>)
    requires j < |jobs| && Within(JobTexts(jobs[j]), y, s)
    ensures Within(JobsTexts(jobs, j + 1), JobsCount(jobs, j) + y, s)
  {
    JobsLength(jobs, j);
    WithinAfter(JobsTexts(jobs, j), JobTexts(jobs[j]), y, s);
  }

  /** Texts held within the first `n - 1` jobs' texts stay where they are
      when job `n - 1` follows. */
  lemma JobsWithinEarlier(jobs: seq<Job>, n: nat, x: int, s: seq<string>)
    requires 0 < n <= |jobs| && Within(JobsTexts(jobs, n - 1), x, s)
    ensures Within(JobsTexts(jobs, n), x, s)
  {
    WithinBefore(JobsTexts(jobs, n - 1), JobTexts(jobs[n - 1]), x, s);
  }

  /** Section `k` of job `j` of the first `n` jobs: its texts follow those
      of the jobs and sections before it. */
  lemma {:induction false} JobWithin(jobs: seq<Job>, n: nat, j: nat, k: nat)
    requires j < n <= |jobs| && k < |jobs[j].sections|
    ensures Within(JobsTexts(jobs, n), JobsCount(jobs, j) + SectionsCount(jobs[j].sections, k),
                   SectionTexts(jobs[j].sections[k]))
  {
    var y, s := SectionsCount(jobs[j].sections, k), SectionTexts(jobs[j].sections[k]);
    if j == n - 1 {
      SectionWithin(jobs[j].sections, |jobs[j].sections|, k);
      JobsWithinLast(jobs, j, y, s);
    } else {
      JobWithin(jobs, n - 1, j, k);
      JobsWithinEarlier(jobs, n, JobsCount(jobs, j) + y, s);
    }
  }

  /** Job `j` of the first `n` has the ranges of its own texts, placed
      right after the texts of the jobs before it. */
  lemma {:induction false} JobPlaced(jobs: seq<Job>, at: int, n: nat, j: nat)
    requires j < n <= |jobs|
    ensures JobsAt(jobs, at, n)[j] == JobAt(jobs[j], at + JobsCount(jobs, j))
  {
    if j < n - 1 {
      JobPlaced(jobs, at, n - 1, j);
    }
  }

  /** Section `k` of job `j` has the ranges of its own texts, placed right
      after the jobs before `j` and the sections of job `j` before `k`. */
  lemma JobSectionPlaced(jobs: seq<Job>, at: int, j: nat, k: nat)
    requires j < |jobs| && k < |jobs[j].sections|
    ensures |JobsAt(jobs, at, |jobs|)[j].sections| == |jobs[j].sections|
    ensures JobsAt(jobs, at, |jobs|)[j].sections[k]
            == SectionAt(jobs[j].sections[k], at + JobsCount(jobs, j) + SectionsCount(jobs[j].sections, k))
  {
    JobPlaced(jobs, at, |jobs|, j);
    SectionPlaced(jobs[j].sections, at + JobsCount(jobs, j), |jobs[j].sections|, k);
  }

  /** A job's range starts at its first section's points and ends at its
      last section's composite; a job without sections has an empty range. */
  predicate JobSpan(r: JobRanges)
  {
    if |r.sections| == 0 then r.span.end == r.span.start - 1
    else r.span.start == r.sections[0].points.start && r.span.end == r.sections[|r.sections| - 1].composite
  }

  lemma JobSpanAt(job: Job, at: int)
    ensures JobSpan(JobAt(job, at))
  {
    var n := |job.sections|;
    if n > 0 {
      SectionPlaced(job.sections, at, n, 0);
      SectionPlaced(job.sections, at, n, n - 1);
    }
  }

  /** The skills range is `[0, len(skills) - 1]` and holds the skills, or is
      None without skills. */
  lemma LegacySkills(skills: seq<string>, jobs: seq<Job>, jobPosting: string)
    ensures var b, m := LegacyTexts(skills, jobs, jobPosting), LegacyMap(skills, jobs, jobPosting);
      && (m.skills.None? <==> |skills| == 0)
      && (m.skills.Some? ==> m.skills.value == Range(0, |skills| - 1) && b[..|skills|] == skills)
  {
    var b := LegacyTexts(skills, jobs, jobPosting);
    assert b[..|skills|] == skills;
  }

  /** The job posting is the last text, and its range is that one position. */
  lemma LegacyPostingLast(skills: seq<string>, jobs: seq<Job>, jobPosting: string)
    ensures var b, m := LegacyTexts(skills, jobs, jobPosting), LegacyMap(skills, jobs, jobPosting);
      && m.jobPosting.start == m.jobPosting.end == |b| - 1
      && b[|b| - 1] == jobPosting
  {
    JobsLength(jobs, |jobs|);
  }

  /** Section `k` of job `j` sits after the skills, the jobs before `j`
      and the sections of job `j` before `k`, and its ranges start there. */
  lemma LegacySectionAt(skills: seq<string>, jobs: seq<Job>, jobPosting: string, j: nat, k: nat)
    requires j < |jobs| && k < |jobs[j].sections|
    ensures j < |LegacyMap(skills, jobs, jobPosting).jobs|
    ensures k < |LegacyMap(skills, jobs, jobPosting).jobs[j].sections|
    ensures LegacyMap(skills, jobs, jobPosting).jobs[j].sections[k]
            == SectionAt(jobs[j].sections[k],
                         |skills| + JobsCount(jobs, j) + SectionsCount(jobs[j].sections, k))
  {
    JobSectionPlaced(jobs, |skills|, j, k);
  }

  /** The texts of section `k` of job `j` sit in the batch at the position
      its ranges start from. */
  lemma LegacySectionWithin(skills: seq<string>, jobs: seq<Job>, jobPosting: string, j: nat, k: nat)
    requires j < |jobs| && k < |jobs[j].sections|
    ensures Within(LegacyTexts(skills, jobs, jobPosting), |skills| + JobsCount(jobs, j) + SectionsCount(jobs[j].sections, k),
             SectionTexts(jobs[j].sections[k]))
  {
    var section := jobs[j].sections[k];
    var x := JobsCount(jobs, j) + SectionsCount(jobs[j].sections, k);
    var t := JobsTexts(jobs, |jobs|);
    JobWithin(jobs, |jobs|, j, k);
    WithinAfter(skills, t, x, SectionTexts(section));
    WithinBefore(skills + t, [jobPosting], |skills| + x, SectionTexts(section));
  }

  /** Section `k` of job `j`: its ranges hold its points, its keywords and
      its composite text, inside the batch. */
  lemma LegacySectionLaid(skills: seq<string>, jobs: seq<Job>, jobPosting: string, j: nat, k: nat)
    requires j < |jobs| && k < |jobs[j].sections|
    ensures var b, m := LegacyTexts(skills, jobs, jobPosting), LegacyMap(skills, jobs, jobPosting);
      && j < |m.jobs| && k < |m.jobs[j].sections|
      && Shaped(m.jobs[j].sections[k], jobs[j].sections[k]) && Holds(b, m.jobs[j].sections[k], jobs[j].sections[k])
  {
    LegacySectionAt(skills, jobs, jobPosting, j, k);
    LegacySectionWithin(skills, jobs, jobPosting, j, k);
    var section := jobs[j].sections[k];
    SectionHolds(LegacyTexts(skills, jobs, jobPosting), LegacyMap(skills, jobs, jobPosting).jobs[j].sections[k], section);
  }

  /** Job `j`'s range runs from its first section to its last, right after
      the skills and the jobs before it; the posting follows the last job. */
  lemma LegacyJobPlaced(skills: seq<string>, jobs: seq<Job>, jobPosting: string, j: nat)
    requires j < |jobs|
    ensures var m := LegacyMap(skills, jobs, jobPosting);
      && j < |m.jobs| && |m.jobs[j].sections| == |jobs[j].sections| && JobSpan(m.jobs[j])
      && m.jobs[j].span.start == |skills| + JobsCount(jobs, j)
      && m.jobs[j].span.end == |skills| + JobsCount(jobs, j + 1) - 1
      && (j > 0 ==> m.jobs[j].span.start == m.jobs[j - 1].span.end + 1)
      && (j == |jobs| - 1 ==> m.jobPosting.start == m.jobs[j].span.end + 1)
  {
    JobPlaced(jobs, |skills|, |jobs|, j);
    JobSpanAt(jobs[j], |skills| + JobsCount(jobs, j));
    if j > 0 {
      JobPlaced(jobs, |skills|, |jobs|, j - 1);
    }
  }

  /** Every range of the map lies inside the batch and holds what it
      names. */
  lemma LegacyLaid(skills: seq<string>, jobs: seq<Job>, jobPosting: string)
    ensures var b, m := LegacyTexts(skills, jobs, jobPosting), LegacyMap(skills, jobs, jobPosting);
      && |m.jobs| == |jobs|
      && (forall j :: 0 <= j < |m.jobs| ==> |m.jobs[j].sections| == |jobs[j].sections| && JobSpan(m.jobs[j]))
      && (forall j, k :: 0 <= j < |m.jobs| && 0 <= k < |m.jobs[j].sections| ==>
            Shaped(m.jobs[j].sections[k], jobs[j].sections[k]) && Holds(b, m.jobs[j].sections[k], jobs[j].sections[k]))
  {
    var m := LegacyMap(skills, jobs, jobPosting);
    forall j | 0 <= j < |jobs|
      ensures j < |m.jobs| && |m.jobs[j].sections| == |jobs[j].sections| && JobSpan(m.jobs[j])
    {
      LegacyJobPlaced(skills, jobs, jobPosting, j);
    }
    forall j, k | 0 <= j < |m.jobs| && 0 <= k < |m.jobs[j].sections|
      ensures Shaped(m.jobs[j].sections[k], jobs[j].sections[k])
        && Holds(LegacyTexts(skills, jobs, jobPosting), m.jobs[j].sections[k], jobs[j].sections[k])
    {
      LegacySectionLaid(skills, jobs, jobPosting, j, k);
    }
  }
}
