/** Page geometry, font sizes, text measurement and the space budget
    (src/core.py). Every physical length is a Scaled Dimension: thousandths
    of an inch, truncated to an integer. The source's floating-point
    conversions are modelled as exact rational arithmetic with floor. */
module Core {
  import opened Text

  // ---- configuration ----

  const SCALE_FACTOR: nat := 1000

  /** int(8.5 * 1000) and int(11 * 1000). */
  const PAGE_WIDTH: nat := 8500
  const PAGE_HEIGHT: nat := 11000

  /** Margins [top, right, bottom, left] of one inch each, scaled. */
  const MARGIN_TOP: nat := 1000
  const MARGIN_RIGHT: nat := 1000
  const MARGIN_BOTTOM: nat := 1000
  const MARGIN_LEFT: nat := 1000

  /** LINE_HEIGHT = 1.15, kept as the exact ratio 115 / 100. */
  const LINE_HEIGHT_NUM: nat := 115
  const LINE_HEIGHT_DEN: nat := 100

  const MAX_PAGES: nat := 1

  const FONT_SIZE_NAME: nat := 13
  const FONT_SIZE_TITLE: nat := 12
  const FONT_SIZE_SUBTITLE: nat := 11
  const FONT_SIZE_REGULAR: nat := 10
  const SPACING_GAP: nat := 6
  const SPACING_GAP_SMALL: nat := 3

  /** Declared by the configuration; no selection step reads it. */
  const MIN_POINTS_PER_SECTION: nat := 3
  const SKILLS_LINE_COUNT: nat := 2
  const COURSES_LINE_COUNT: nat := 1
  const KEYWORD_LINES_PER_SECTION: nat := 1

  /** The Arial profile the configuration selects. */
  const UNITS_PER_EM: nat := 2048
  const FONT_HEIGHT_UNITS: nat := 2355
  const FONT_AVG_WIDTH_UNITS: nat := 1079

  /** Points per inch. */
  const POINTS_PER_INCH: nat := 72

  /** FontMetrics.maxWidth: the printable line width. */
  const MAX_WIDTH: nat := PAGE_WIDTH - MARGIN_RIGHT - MARGIN_LEFT

  /** SpaceInformation.maxHeight: the printable height of all pages. */
  const MAX_HEIGHT: nat := (PAGE_HEIGHT - MARGIN_TOP - MARGIN_BOTTOM) * MAX_PAGES

  lemma PageGeometry()
    ensures MAX_WIDTH == 6500 && MAX_HEIGHT == 9000
  {
  }

  // ---- sizes ----

  /** A point size with its line height in Scaled Dimension units. */
  datatype SizeInfo = SizeInfo(size: nat, height: nat)

  /** The divisor of the line-height conversion:
      heightPt = FONT_HEIGHT_UNITS * size * 1.15 / UNITS_PER_EM,
      height = int(heightPt / 72 * SCALE_FACTOR). */
  const HEIGHT_DEN: nat := UNITS_PER_EM * LINE_HEIGHT_DEN * POINTS_PER_INCH

  /** SizeInfo.__post_init__: the line height is the floor of the exact
      rational height, so it is the largest h with h * DEN <= numerator. */
  function MakeSize(size: nat): (s: SizeInfo)
    ensures s.size == size
    ensures s.height * HEIGHT_DEN <= FONT_HEIGHT_UNITS * size * LINE_HEIGHT_NUM * SCALE_FACTOR
    ensures FONT_HEIGHT_UNITS * size * LINE_HEIGHT_NUM * SCALE_FACTOR < (s.height + 1) * HEIGHT_DEN
  {
    SizeInfo(size, FONT_HEIGHT_UNITS * size * LINE_HEIGHT_NUM * SCALE_FACTOR / HEIGHT_DEN)
  }

  /** The line height never decreases as the point size grows. */
  lemma HeightMonotone(a: nat, b: nat)
    requires a <= b
    ensures MakeSize(a).height <= MakeSize(b).height
  {
  }

  /** The module-level sizes. Their line heights are written out as the
      values `__post_init__` computes for them, so that the budget
      arithmetic elsewhere stays linear; SizesComputed proves each equal
      to MakeSize of its point size. */
  const NAME: SizeInfo := SizeInfo(FONT_SIZE_NAME, 238)
  const REGULAR: SizeInfo := SizeInfo(FONT_SIZE_REGULAR, 183)
  const TITLE: SizeInfo := SizeInfo(FONT_SIZE_TITLE, 220)
  const SUBTITLE: SizeInfo := SizeInfo(FONT_SIZE_SUBTITLE, 202)
  const GAP: SizeInfo := SizeInfo(SPACING_GAP, 110)
  const GAP_SMALL: SizeInfo := SizeInfo(SPACING_GAP_SMALL, 55)

  /** Each configured size is the one `SizeInfo(size)` builds. */
  lemma SizesComputed()
    ensures NAME == MakeSize(FONT_SIZE_NAME) && TITLE == MakeSize(FONT_SIZE_TITLE)
    ensures SUBTITLE == MakeSize(FONT_SIZE_SUBTITLE) && REGULAR == MakeSize(FONT_SIZE_REGULAR)
    ensures GAP == MakeSize(SPACING_GAP) && GAP_SMALL == MakeSize(SPACING_GAP_SMALL)
  {
  }

  // ---- text metrics ----

  /** The font's cmap composed with its hmtx advance widths: a code point
      that the font maps has the advance width of its glyph. */
  datatype FontMetrics = FontMetrics(advance: map<int, nat>)

  /** Design units of one character: its advance width, or the average
      width for a character the font does not map. */
  function CharUnits(font: FontMetrics, c: char): nat
  {
    if c as int in font.advance then font.advance[c as int] else FONT_AVG_WIDTH_UNITS
  }

  /** Design units of a string: the sum over its characters. */
  function Units(font: FontMetrics, text: string): nat
    decreases |text|
  {
    if |text| == 0 then 0
    else Units(font, text[..|text| - 1]) + CharUnits(font, text[|text| - 1])
  }

  /** The unit total of a concatenation is the sum of the unit totals. */
  lemma {:induction false} UnitsAppend(font: FontMetrics, a: string, b: string)
    ensures Units(font, a + b) == Units(font, a) + Units(font, b)
    decreases |b|
  {
    if |b| > 0 {
      var b' := b[..|b| - 1];
      UnitsAppend(font, a, b');
      assert (a + b)[..|a + b| - 1] == a + b';
    } else {
      assert a + b == a;
    }
  }

  /** The divisor of the width conversion:
      widthPts = units * size / UNITS_PER_EM, width = int(widthPts / 72 * SCALE_FACTOR). */
  const WIDTH_DEN: nat := UNITS_PER_EM * POINTS_PER_INCH

  /** The width in Scaled Dimension units of a string of `units` design
      units: the floor of the exact rational width. */
  function ScaleWidth(units: nat, size: SizeInfo): (width: nat)
    ensures width * WIDTH_DEN <= units * size.size * SCALE_FACTOR
    ensures units * size.size * SCALE_FACTOR < (width + 1) * WIDTH_DEN
  {
    units * size.size * SCALE_FACTOR / WIDTH_DEN
  }

  /** FontMetrics.getWidth as a function of the text. Line wrapping is not
      taken into account. */
  function Width(font: FontMetrics, text: string, size: SizeInfo): nat
  {
    ScaleWidth(Units(font, text), size)
  }

  /** FontMetrics.getWidth: accumulates the design units character by
      character, then converts them. */
  method GetWidth(font: FontMetrics, text: string, size: SizeInfo) returns (width: nat)
    ensures width == Width(font, text, size)
    ensures width * WIDTH_DEN <= Units(font, text) * size.size * SCALE_FACTOR
  {
    var totalWidth: nat := 0;
    var i := 0;
    while i < |text|
      invariant 0 <= i <= |text|
      invariant totalWidth == Units(font, text[..i])
    {
      var c := text[i];
      if c as int in font.advance {
        totalWidth := totalWidth + font.advance[c as int];
      } else {
        totalWidth := totalWidth + FONT_AVG_WIDTH_UNITS;
      }
      assert text[..i + 1][..i] == text[..i];
      i := i + 1;
    }
    assert text[..i] == text;
    width := totalWidth * size.size * SCALE_FACTOR / WIDTH_DEN;
  }

  /** math.ceil(width / maxWidth): the fewest lines of MAX_WIDTH that hold
      `width`. */
  function LineCount(width: nat): (k: nat)
    ensures width <= k * MAX_WIDTH
    ensures k > 0 ==> (k - 1) * MAX_WIDTH < width
  {
    (width + MAX_WIDTH - 1) / MAX_WIDTH
  }

  /** FontMetrics.getHeight: a blank text is one spacer of the size's bare
      point height; any other text is as many lines of the size's line
      height as its width needs. */
  function Height(font: FontMetrics, text: string, size: SizeInfo): nat
  {
    if IsBlank(text) then size.size * SCALE_FACTOR / POINTS_PER_INCH
    else size.height * LineCount(Width(font, text, size))
  }

  /** A blank text's height depends on the size alone. */
  lemma BlankHeight(font: FontMetrics, text: string, size: SizeInfo)
    requires IsBlank(text)
    ensures Height(font, text, size) == Height(font, "", size)
    ensures Height(font, text, size) * POINTS_PER_INCH <= size.size * SCALE_FACTOR
    ensures size.size * SCALE_FACTOR < (Height(font, text, size) + 1) * POINTS_PER_INCH
  {
  }

  /** A non-blank text takes a whole number of lines of its size: a
      multiple of the line height, and at least one line when its width is
      positive. */
  lemma TextHeight(font: FontMetrics, text: string, size: SizeInfo)
    requires !IsBlank(text) && size.height > 0
    ensures Height(font, text, size) % size.height == 0
    ensures Width(font, text, size) > 0 ==> Height(font, text, size) >= size.height
  {
    var k := LineCount(Width(font, text, size));
    MultipleOf(size.height, k);
    if Width(font, text, size) > 0 {
      assert k >= 1;
      assert size.height * k >= size.height * 1;
    }
  }

  /** A product a * k leaves no remainder when divided by a. */
  lemma MultipleOf(a: nat, k: nat)
    requires a > 0
    ensures (a * k) % a == 0
  {
    var x := a * k;
    var q, r := x / a, x % a;
    assert x == a * q + r && 0 <= r < a;
    assert a * (k - q) == r;
    if k - q >= 1 {
      assert false;
    } else if k - q <= -1 {
      assert false;
    }
  }

  // ---- catalog items ----

  datatype ItemType = SKILL | POINT | KEYWORD | COURSE | JOB_POSTING

  /** ProcessedItem.metadata: where a point or keyword sits in the
      document; other items carry none. */
  datatype Metadata =
    | NoMetadata
    | PointOf(jobIndex: nat, sectionIndex: nat, pointIndex: nat)
    | KeywordOf(jobIndex: nat, sectionIndex: nat, keywordIndex: nat)
  {
    predicate HasSection() { PointOf? || KeywordOf? }
  }

  /** One scorable piece of text; `index` is its position in the batch. */
  datatype ProcessedItem = ProcessedItem(
    text: string,
    index: nat,
    lineHeight: nat,
    lineWidth: nat,
    itemType: ItemType,
    metadata: Metadata)

  /** `[item for item in items if item.itemType == t]`. */
  function OfType(items: seq<ProcessedItem>, t: ItemType): seq<ProcessedItem>
    decreases |items|
  {
    if |items| == 0 then []
    else OfType(items[..|items| - 1], t) + (if items[|items| - 1].itemType == t then [items[|items| - 1]] else [])
  }

  /** The filtered list holds exactly the items of type `t`. */
  lemma {:induction false} OfTypeFacts(items: seq<ProcessedItem>, t: ItemType)
    ensures forall x :: x in OfType(items, t) <==> x in items && x.itemType == t
    decreases |items|
  {
    if |items| > 0 {
      var init := items[..|items| - 1];
      OfTypeFacts(init, t);
      assert items == init + [items[|items| - 1]];
    }
  }

  // ---- space budget ----

  /** SpaceInformation: the fixed overheads of structural groups and the
      reserved space, all Scaled Dimensions. */
  datatype SpaceInformation = SpaceInformation(
    jobOverhead: nat,
    sectionOverhead: nat,
    skillReserve: nat,
    keywordReserve: nat,
    courseReserve: nat,
    maxHeight: nat,
    keywordLinesPerSection: nat,
    skillsLineCount: nat,
    coursesLineCount: nat,
    minPointsPerSection: nat)

  /** SpaceInformation.__init__: a job costs four regular lines (role,
      company, location, dates) and a small and a regular gap; a section its
      subtitle and a small gap; each reserve is its line count of regular
      lines. */
  function MakeSpaceInformation(): (s: SpaceInformation)
    ensures s.jobOverhead == 897 && s.sectionOverhead == 257
    ensures s.skillReserve == 366 && s.keywordReserve == 183 && s.courseReserve == 183
    ensures s.maxHeight == 9000
  {
    SpaceInformation(
      jobOverhead := 4 * REGULAR.height + GAP_SMALL.height + GAP.height,
      sectionOverhead := SUBTITLE.height + GAP_SMALL.height,
      skillReserve := SKILLS_LINE_COUNT * REGULAR.height,
      keywordReserve := KEYWORD_LINES_PER_SECTION * REGULAR.height,
      courseReserve := COURSES_LINE_COUNT * REGULAR.height,
      maxHeight := MAX_HEIGHT,
      keywordLinesPerSection := KEYWORD_LINES_PER_SECTION,
      skillsLineCount := SKILLS_LINE_COUNT,
      coursesLineCount := COURSES_LINE_COUNT,
      minPointsPerSection := MIN_POINTS_PER_SECTION)
  }

  /** The module-level SPACE_INFO, with the figures `__init__` computes
      written out (SpaceComputed). */
  const SPACE_INFO: SpaceInformation := SpaceInformation(
    jobOverhead := 897,
    sectionOverhead := 257,
    skillReserve := 366,
    keywordReserve := 183,
    courseReserve := 183,
    maxHeight := MAX_HEIGHT,
    keywordLinesPerSection := KEYWORD_LINES_PER_SECTION,
    skillsLineCount := SKILLS_LINE_COUNT,
    coursesLineCount := COURSES_LINE_COUNT,
    minPointsPerSection := MIN_POINTS_PER_SECTION)

  /** SPACE_INFO is the one `SpaceInformation()` builds. */
  lemma SpaceComputed()
    ensures SPACE_INFO == MakeSpaceInformation()
  {
  }
}
