/** The line generator of src/lineGenerator.py: the lines of the document
    as text, size, whether they must always be printed, where in the
    experience they come from and what kind of line they are. The
    generator's only state is the font, which the height functions take as
    a parameter. */
module Lines {
  import opened Wrappers
  import opened Text
  import opened Core
  import opened Resume
  import Pruners

  /** The `lineType` tags. */
  datatype LineType =
    | Regular | Header | ContactLine | GapLine | SkillsLine | JobHeaderLine
    | SectionHeaderLine | PointLine | KeywordsLine | LinksLine | EducationLine

  /** `LineSpec`: the indices are None where the line belongs to no job,
      section or point. */
  datatype LineSpec = LineSpec(
    text: string,
    size: SizeInfo,
    isRequired: bool,
    jobIndex: Option<int>,
    sectionIndex: Option<int>,
    pointIndex: Option<int>,
    lineType: LineType)

  /** A line outside the experience: no indices. */
  function Plain(text: string, size: SizeInfo, isRequired: bool, lineType: LineType): LineSpec
  {
    LineSpec(text, size, isRequired, None, None, None, lineType)
  }

  /** A line of job `jobIndex`'s header; never required. */
  function OfJob(text: string, size: SizeInfo, jobIndex: int, lineType: LineType): LineSpec
  {
    LineSpec(text, size, false, Some(jobIndex), None, None, lineType)
  }

  /** A line of section `sectionIndex` of job `jobIndex`; never required. */
  function OfSection(text: string, size: SizeInfo, jobIndex: int, sectionIndex: int, lineType: LineType): LineSpec
  {
    LineSpec(text, size, false, Some(jobIndex), Some(sectionIndex), None, lineType)
  }

  /** The separator of a job's dates: an em dash read back through the
      wrong code page, as it stands in the generator. */
  const DATE_SEPARATOR: string := [' ', '\U{00E2}', '\U{20AC}', '\U{201D}', ' ']
  const LIST_SEPARATOR: string := ", "
  const LINKS_SEPARATOR: string := " | "
  const POINT_PREFIX: string := "- "
  const KEYWORDS_PREFIX: string := "Technologies Used: "

  // ---- combine ----

  /** `combine`: the empty string for no texts, the texts joined by the
      separator otherwise. Unlike the ranker's `combine` it does not fail on
      an empty list. */
  function Combine(texts: seq<string>, separator: string): string
  {
    if |texts| == 0 then "" else Join(texts, separator)
  }

  /** Nothing combines to the empty string, one text to itself; otherwise
      every text is kept with one separator between neighbours and none
      after the last, and one more text adds a separator and that text. */
  lemma CombineFacts(texts: seq<string>, separator: string)
    ensures |texts| == 0 ==> Combine(texts, separator) == ""
    ensures |texts| == 1 ==> Combine(texts, separator) == texts[0]
    ensures |texts| > 0 ==>
      |Combine(texts, separator)| == TotalLength(texts) + (|texts| - 1) * |separator|
    ensures |texts| > 0 ==>
      var r, last := Combine(texts, separator), texts[|texts| - 1];
      |last| <= |r| && r[|r| - |last|..] == last
    ensures forall t :: |texts| > 0 ==> Combine(texts + [t], separator) == Combine(texts, separator) + separator + t
  {
    if |texts| > 0 {
      JoinLength(texts, separator);
      JoinEndsWithLast(texts, separator);
      forall t
        ensures Combine(texts + [t], separator) == Combine(texts, separator) + separator + t
      {
        JoinSnoc(texts, t, separator);
      }
    }
  }

  // ---- contact, skills and experience headers ----

  /** The name on its own line at the name size, then the email, phone and
      location line and the GitHub and website line. */
  function ContactLines(c: Contact): seq<LineSpec>
  {
    [ Plain(c.name, NAME, true, Header),
      Plain("Email: " + c.email + " | Phone: " + c.phone + " | " + c.location, REGULAR, true, ContactLine),
      Plain("Github: " + c.github + " | Website: " + c.website, REGULAR, true, ContactLine) ]
  }

  /** `generateContactLines`. */
  method GenerateContactLines(c: Contact) returns (lines: seq<LineSpec>)
    ensures lines == ContactLines(c)
  {
    lines := [];
    lines := lines + [Plain(c.name, NAME, true, Header)];
    lines := lines + [Plain("Email: " + c.email + " | Phone: " + c.phone + " | " + c.location, REGULAR, true, ContactLine)];
    lines := lines + [Plain("Github: " + c.github + " | Website: " + c.website, REGULAR, true, ContactLine)];
  }

  /** Three required lines, the name first at the name size. */
  lemma ContactLinesShape(c: Contact)
    ensures var lines := ContactLines(c);
      && |lines| == 3
      && (forall i :: 0 <= i < |lines| ==> lines[i].isRequired && lines[i].jobIndex.None?)
      && lines[0].text == c.name && lines[0].size == NAME
  {
  }

  /** A required gap, then the title: the skills and experience headers. */
  function TitleLines(title: string): (lines: seq<LineSpec>)
    ensures |lines| == 2 && lines[0].text == "" && lines[0].size == GAP && lines[1].text == title
    ensures forall i :: 0 <= i < |lines| ==> lines[i].isRequired
  {
    [Plain("", GAP, true, GapLine), Plain(title, TITLE, true, Header)]
  }

  /** `generateSkillsHeader`. */
  function SkillsHeader(skills: Skills): seq<LineSpec>
  {
    TitleLines(skills.title)
  }

  /** `generateExperienceHeader`. */
  function ExperienceHeader(experience: Experience): seq<LineSpec>
  {
    TitleLines(experience.title)
  }

  /** `generateSkillsContent`: the skills combined into one optional line. */
  function SkillsContent(skillItems: seq<string>): LineSpec
  {
    Plain(Combine(skillItems, LIST_SEPARATOR), REGULAR, false, SkillsLine)
  }

  /** The skills line is optional, and empty exactly when there are no
      skills or a single empty one. */
  lemma SkillsContentFacts(skillItems: seq<string>)
    ensures var line := SkillsContent(skillItems);
      && !line.isRequired && line.size == REGULAR
      && (line.text == "" <==> |skillItems| == 0 || (|skillItems| == 1 && skillItems[0] == ""))
  {
    CombineFacts(skillItems, LIST_SEPARATOR);
    if |skillItems| > 1 {
      assert TotalLength(skillItems) >= 0;
      assert |SkillsContent(skillItems).text| >= |LIST_SEPARATOR|;
    }
  }

  // ---- a job's lines ----

  /** `job.get('from', job.get('from_date', ''))`. */
  function FromDate(job: Job): string
  {
    match job.from
    case Some(d) => d
    case None => match job.fromDate { case Some(d) => d case None => "" }
  }

  /** `job.get('to', job.get('to_date', ''))`. */
  function ToDate(job: Job): string
  {
    match job.to
    case Some(d) => d
    case None => match job.toDate { case Some(d) => d case None => "" }
  }

  /** A gap, the role, the company, the location, the dates and a small
      gap, all tagged with the job and none required. */
  function JobHeader(job: Job, jobIndex: int): seq<LineSpec>
  {
    [ OfJob("", GAP, jobIndex, GapLine),
      OfJob(job.role, REGULAR, jobIndex, JobHeaderLine),
      OfJob(job.company, REGULAR, jobIndex, JobHeaderLine),
      OfJob(job.location, REGULAR, jobIndex, JobHeaderLine),
      OfJob(Combine([FromDate(job), ToDate(job)], DATE_SEPARATOR), REGULAR, jobIndex, JobHeaderLine),
      OfJob("", GAP_SMALL, jobIndex, GapLine) ]
  }

  /** `generateJobHeader`; its two branches on `jobIndex > 0` add the same
      gap. */
  method GenerateJobHeader(job: Job, jobIndex: int) returns (lines: seq<LineSpec>)
    ensures lines == JobHeader(job, jobIndex)
  {
    lines := [];
    if jobIndex > 0 {
      lines := lines + [OfJob("", GAP, jobIndex, GapLine)];
    } else {
      lines := lines + [OfJob("", GAP, jobIndex, GapLine)];
    }
    var fromDate := FromDate(job);
    var toDate := ToDate(job);
    lines := lines + [
      OfJob(job.role, REGULAR, jobIndex, JobHeaderLine),
      OfJob(job.company, REGULAR, jobIndex, JobHeaderLine),
      OfJob(job.location, REGULAR, jobIndex, JobHeaderLine),
      OfJob(Combine([fromDate, toDate], DATE_SEPARATOR), REGULAR, jobIndex, JobHeaderLine),
      OfJob("", GAP_SMALL, jobIndex, GapLine) ];
  }

  /** Six optional lines, a gap first and a small gap last, the dates
      joined by the separator; the job index tags every line and changes
      nothing else. */
  lemma JobHeaderShape(job: Job, jobIndex: int, otherIndex: int)
    ensures var lines := JobHeader(job, jobIndex);
      && |lines| == 6
      && lines[0].size == GAP && lines[5].size == GAP_SMALL
      && lines[4].text == FromDate(job) + DATE_SEPARATOR + ToDate(job)
      && (forall i :: 0 <= i < 6 ==> !lines[i].isRequired && lines[i].jobIndex == Some(jobIndex))
      && (forall i :: 0 <= i < 6 ==> lines[i].(jobIndex := Some(otherIndex)) == JobHeader(job, otherIndex)[i])
  {
    assert Join([FromDate(job), ToDate(job)], DATE_SEPARATOR) == FromDate(job) + DATE_SEPARATOR + ToDate(job) by {
      JoinSnoc([FromDate(job)], ToDate(job), DATE_SEPARATOR);
      assert [FromDate(job)] + [ToDate(job)] == [FromDate(job), ToDate(job)];
    }
  }

  /** The section's title at the subtitle size, after a small gap unless it
      is the job's first section. */
  function SectionHeader(section: Section, jobIndex: int, sectionIndex: int, isFirstInJob: bool): seq<LineSpec>
  {
    (if isFirstInJob then [] else [OfSection("", GAP_SMALL, jobIndex, sectionIndex, GapLine)])
    + [OfSection(section.title, SUBTITLE, jobIndex, sectionIndex, SectionHeaderLine)]
  }

  /** `generateSectionHeader`. */
  method GenerateSectionHeader(section: Section, jobIndex: int, sectionIndex: int, isFirstInJob: bool)
    returns (lines: seq<LineSpec>)
    ensures lines == SectionHeader(section, jobIndex, sectionIndex, isFirstInJob)
  {
    lines := [];
    if !isFirstInJob {
      lines := lines + [OfSection("", GAP_SMALL, jobIndex, sectionIndex, GapLine)];
    }
    lines := lines + [OfSection(section.title, SUBTITLE, jobIndex, sectionIndex, SectionHeaderLine)];
  }

  /** One line for a job's first section, two otherwise, the first of them
      a small gap; the title comes last. */
  lemma SectionHeaderShape(section: Section, jobIndex: int, sectionIndex: int, isFirstInJob: bool)
    ensures var lines := SectionHeader(section, jobIndex, sectionIndex, isFirstInJob);
      && |lines| == (if isFirstInJob then 1 else 2)
      && (!isFirstInJob ==> lines[0].text == "" && lines[0].size == GAP_SMALL)
      && lines[|lines| - 1].text == section.title && lines[|lines| - 1].size == SUBTITLE
      && (forall i :: 0 <= i < |lines| ==> !lines[i].isRequired && lines[i].sectionIndex == Some(sectionIndex))
  {
  }

  /** `generatePointLine`. */
  function PointLineOf(point: string, jobIndex: int, sectionIndex: int, pointIndex: int): LineSpec
  {
    LineSpec(POINT_PREFIX + point, REGULAR, false, Some(jobIndex), Some(sectionIndex), Some(pointIndex), PointLine)
  }

  /** `generateKeywordsLine`. */
  function KeywordsLineOf(keywords: seq<string>, jobIndex: int, sectionIndex: int): LineSpec
  {
    OfSection(KEYWORDS_PREFIX + Combine(keywords, LIST_SEPARATOR), REGULAR, jobIndex, sectionIndex, KeywordsLine)
  }

  /** The text of a `links` entry: its descriptor, a colon and its link. */
  function LinkText(link: LinkEntry): string
  {
    link.descriptor + ": " + link.link
  }

  function LinkTexts(links: seq<LinkEntry>): (texts: seq<string>)
    ensures |texts| == |links|
    ensures forall i :: 0 <= i < |links| ==> texts[i] == LinkText(links[i])
  {
    seq(|links|, i requires 0 <= i < |links| => LinkText(links[i]))
  }

  /** `generateLinksLine`. */
  function LinksLineOf(links: seq<LinkEntry>, jobIndex: int, sectionIndex: int): LineSpec
  {
    OfSection(Combine(LinkTexts(links), LINKS_SEPARATOR), REGULAR, jobIndex, sectionIndex, LinksLine)
  }

  /** A point line gives back its point after the prefix, a keywords line
      the combined keywords after its prefix; neither is required, and a
      links line holds one entry per link. */
  lemma ExperienceLineTexts(point: string, keywords: seq<string>, links: seq<LinkEntry>,
                            jobIndex: int, sectionIndex: int, pointIndex: int)
    ensures var p := PointLineOf(point, jobIndex, sectionIndex, pointIndex);
      StartsWith(p.text, POINT_PREFIX) && p.text[|POINT_PREFIX|..] == point && !p.isRequired
      && p.pointIndex == Some(pointIndex)
    ensures var k := KeywordsLineOf(keywords, jobIndex, sectionIndex);
      StartsWith(k.text, KEYWORDS_PREFIX) && k.text[|KEYWORDS_PREFIX|..] == Combine(keywords, LIST_SEPARATOR)
      && !k.isRequired
    ensures |links| == 0 <==> |LinkTexts(links)| == 0
    ensures |links| == 1 ==> LinksLineOf(links, jobIndex, sectionIndex).text == LinkText(links[0])
  {
    var p := PointLineOf(point, jobIndex, sectionIndex, pointIndex);
    assert p.text[..|POINT_PREFIX|] == POINT_PREFIX;
    var k := KeywordsLineOf(keywords, jobIndex, sectionIndex);
    assert k.text[..|KEYWORDS_PREFIX|] == KEYWORDS_PREFIX;
  }

  // ---- education ----

  /** The concentration line: present when a non-empty concentration is
      given (Python's truth test on the string). */
  function Concentration(e: Education): seq<LineSpec>
  {
    match e.concentration
    case Some(conc) => if |conc| > 0 then [Plain("Concentration in " + conc, REGULAR, true, EducationLine)] else []
    case None => []
  }

  /** The graduation line, worded by whether the degree is complete. */
  function Graduated(e: Education): seq<LineSpec>
  {
    match e.graduation
    case Some(grad) =>
      [Plain((if grad.hasGraduated then "Graduated: " else "Expected Graduation: ") + grad.on, REGULAR, true, EducationLine)]
    case None => []
  }

  /** A gap, the title, the degree, the concentration if any, the school,
      the graduation if any, the GPA, the honors and the courses. */
  function EducationLines(e: Education): seq<LineSpec>
  {
    EducationHead(e) + Concentration(e) + [EducationSchool(e)] + Graduated(e) + EducationTail(e)
  }

  function EducationHead(e: Education): seq<LineSpec>
  {
    [ Plain("", GAP, true, GapLine),
      Plain(e.title, TITLE, true, Header),
      Plain(e.degree + " in " + e.major, REGULAR, true, EducationLine) ]
  }

  function EducationSchool(e: Education): LineSpec
  {
    Plain(e.school + ", " + e.location, REGULAR, true, EducationLine)
  }

  function EducationTail(e: Education): seq<LineSpec>
  {
    [ Plain("GPA: " + e.gpa, REGULAR, true, EducationLine),
      Plain("Honors: " + Combine(e.honors, LIST_SEPARATOR), REGULAR, true, EducationLine),
      Plain("Relevant Courses: " + Combine(e.courses, LIST_SEPARATOR), REGULAR, true, EducationLine) ]
  }

  /** `generateEducationLines`. */
  method GenerateEducationLines(e: Education) returns (lines: seq<LineSpec>)
    ensures lines == EducationLines(e)
  {
    lines := [];
    lines := lines + [Plain("", GAP, true, GapLine)];
    lines := lines + [Plain(e.title, TITLE, true, Header)];
    var degree := e.degree + " in " + e.major;
    lines := lines + [Plain(degree, REGULAR, true, EducationLine)];
    match e.concentration {
      case Some(conc) =>
        if |conc| > 0 {
          lines := lines + [Plain("Concentration in " + conc, REGULAR, true, EducationLine)];
        }
      case None =>
    }
    assert lines == EducationHead(e) + Concentration(e);
    var school := e.school + ", " + e.location;
    lines := lines + [Plain(school, REGULAR, true, EducationLine)];
    match e.graduation {
      case Some(grad) =>
        var gradLine;
        if grad.hasGraduated {
          gradLine := "Graduated: " + grad.on;
        } else {
          gradLine := "Expected Graduation: " + grad.on;
        }
        lines := lines + [Plain(gradLine, REGULAR, true, EducationLine)];
      case None =>
    }
    assert lines == EducationHead(e) + Concentration(e) + [EducationSchool(e)] + Graduated(e);
    lines := lines + [Plain("GPA: " + e.gpa, REGULAR, true, EducationLine)];
    var honorsList := Combine(e.honors, LIST_SEPARATOR);
    lines := lines + [Plain("Honors: " + honorsList, REGULAR, true, EducationLine)];
    var courseList := Combine(e.courses, LIST_SEPARATOR);
    lines := lines + [Plain("Relevant Courses: " + courseList, REGULAR, true, EducationLine)];
  }

  /** Every education line is required; there are seven, plus one exactly
      when a non-empty concentration is given and one exactly when a
      graduation is given, which reads "Graduated: " exactly when the degree
      is complete. */
  lemma EducationLinesShape(e: Education)
    ensures var lines := EducationLines(e);
      && (forall i :: 0 <= i < |lines| ==> lines[i].isRequired)
      && |lines| == 7 + |Concentration(e)| + |Graduated(e)|
      && (|Concentration(e)| == 1 <==> e.concentration.Some? && |e.concentration.value| > 0)
      && |Concentration(e)| <= 1
      && (|Graduated(e)| == 1 <==> e.graduation.Some?)
      && |Graduated(e)| <= 1
      && (e.graduation.Some? ==>
            (StartsWith(Graduated(e)[0].text, "Graduated: ") <==> e.graduation.value.hasGraduated))
  {
    if e.graduation.Some? {
      var t := Graduated(e)[0].text;
      if !e.graduation.value.hasGraduated {
        assert t[..11] != "Graduated: " by {
          assert t[0] == 'E';
        }
      }
    }
  }

  // ---- all required lines and heights ----

  /** `generateAllRequiredLines`: the contact lines, the skills header, the
      experience header and the education lines, in that order. */
  function AllRequiredLines(content: Content): seq<LineSpec>
  {
    ContactLines(content.contact) + SkillsHeader(content.skills)
    + ExperienceHeader(content.experience) + EducationLines(content.education)
  }

  method GenerateAllRequiredLines(content: Content) returns (lines: seq<LineSpec>)
    ensures lines == AllRequiredLines(content)
  {
    lines := [];
    var contact := GenerateContactLines(content.contact);
    lines := lines + contact;
    lines := lines + SkillsHeader(content.skills);
    lines := lines + ExperienceHeader(content.experience);
    var education := GenerateEducationLines(content.education);
    lines := lines + education;
  }

  /** Every line `generateAllRequiredLines` gives is required, and there are
      fourteen of them plus the optional concentration and graduation. */
  lemma AllRequiredShape(content: Content)
    ensures var lines := AllRequiredLines(content);
      var e := content.education;
      && |lines| == 14 + |Concentration(e)| + |Graduated(e)|
      && (forall i :: 0 <= i < |lines| ==> lines[i].isRequired)
      && lines[0] == ContactLines(content.contact)[0]
  {
    var e := content.education;
    ContactLinesShape(content.contact);
    EducationLinesShape(e);
    var a, b := ContactLines(content.contact) + SkillsHeader(content.skills) + ExperienceHeader(content.experience), EducationLines(e);
    assert forall i :: 0 <= i < |a| ==> a[i].isRequired;
    assert forall i :: 0 <= i < |a + b| ==> (a + b)[i] == if i < |a| then a[i] else b[i - |a|];
  }

  /** `calculateHeight`. */
  function LineHeight(font: FontMetrics, line: LineSpec): nat
  {
    Height(font, line.text, line.size)
  }

  /** `calculateTotalHeight`: the sum of the lines' heights. */
  function TotalHeight(font: FontMetrics, lines: seq<LineSpec>): nat
    decreases |lines|
  {
    if |lines| == 0 then 0 else TotalHeight(font, lines[..|lines| - 1]) + LineHeight(font, lines[|lines| - 1])
  }

  /** The total height of lines put together is the sum of their totals. */
  lemma {:induction false} TotalHeightAppend(font: FontMetrics, a: seq<LineSpec>, b: seq<LineSpec>)
    ensures TotalHeight(font, a + b) == TotalHeight(font, a) + TotalHeight(font, b)
    decreases |b|
  {
    if |b| > 0 {
      TotalHeightAppend(font, a, b[..|b| - 1]);
      assert (a + b)[..|a + b| - 1] == a + b[..|b| - 1];
    } else {
      assert a + b == a;
    }
  }

  /** The lines as the ranker keeps them: text and size. */
  function Sized(lines: seq<LineSpec>): (r: seq<Pruners.SizedLine>)
    ensures |r| == |lines|
    ensures forall i :: 0 <= i < |lines| ==> r[i] == (lines[i].text, lines[i].size)
  {
    seq(|lines|, i requires 0 <= i < |lines| => (lines[i].text, lines[i].size))
  }

  /** A total height is the height the ranker measures for the same texts
      and sizes. */
  lemma {:induction false} TotalHeightSized(font: FontMetrics, lines: seq<LineSpec>)
    ensures TotalHeight(font, lines) == Pruners.LinesHeight(font, Sized(lines))
    decreases |lines|
  {
    if |lines| > 0 {
      var n := |lines|;
      TotalHeightSized(font, lines[..n - 1]);
      assert Sized(lines)[..n - 1] == Sized(lines[..n - 1]);
    }
  }

  lemma SizedAppend(a: seq<LineSpec>, b: seq<LineSpec>)
    ensures Sized(a + b) == Sized(a) + Sized(b)
  {
  }

  /** The generator's required lines carry the same texts and sizes as the
      ranker's `generateRequiredLines` whenever the latter succeeds; it
      fails on empty honors or courses, where the generator writes an empty
      list. */
  lemma RequiredLinesAgree(content: Content)
    ensures var r := Pruners.RequiredLines(content);
      r.Ok? ==> Sized(AllRequiredLines(content)) == r.value
    ensures var e := content.education;
      (|e.honors| == 0 ==> "Honors: " == EducationLines(e)[|EducationLines(e)| - 2].text)
      && (|e.courses| == 0 ==> "Relevant Courses: " == EducationLines(e)[|EducationLines(e)| - 1].text)
  {
    var e := content.education;
    var head := ContactLines(content.contact) + SkillsHeader(content.skills)
      + ExperienceHeader(content.experience) + EducationHead(e);
    assert AllRequiredLines(content) == head + Concentration(e) + [EducationSchool(e)] + Graduated(e) + EducationTail(e);
    SizedAppend(head + Concentration(e) + [EducationSchool(e)] + Graduated(e), EducationTail(e));
    SizedAppend(head + Concentration(e) + [EducationSchool(e)], Graduated(e));
    SizedAppend(head + Concentration(e), [EducationSchool(e)]);
    SizedAppend(head, Concentration(e));
    assert Sized(Concentration(e)) == Pruners.ConcentrationLine(e);
    assert Sized(Graduated(e)) == Pruners.GraduationLine(e);
    var c := content.contact;
    assert Sized(head) ==
      [ (c.name, NAME),
        ("Email: " + c.email + " | Phone: " + c.phone + " | " + c.location, REGULAR),
        ("Github: " + c.github + " | Website: " + c.website, REGULAR),
        ("", GAP),
        (content.skills.title, TITLE),
        ("", GAP),
        (content.experience.title, TITLE),
        ("", GAP),
        (e.title, TITLE),
        (e.degree + " in " + e.major, REGULAR) ];
    assert Sized([EducationSchool(e)]) == [(e.school + ", " + e.location, REGULAR)];
    if |e.honors| > 0 && |e.courses| > 0 {
      assert Sized(EducationTail(e)) ==
        [ ("GPA: " + e.gpa, REGULAR),
          ("Honors: " + Join(e.honors, Pruners.SEPARATOR), REGULAR),
          ("Relevant Courses: " + Join(e.courses, Pruners.SEPARATOR), REGULAR) ];
    }
  }
}
