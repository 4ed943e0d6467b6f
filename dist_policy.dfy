/** The distribution script's classifier: a text element is a heading, a
    subheading or content according to where the size of its first font
    lies relative to the median size plus fixed fractions of the
    inter-quartile range; global counters record how often each band was
    chosen. */
module DistPolicy {
  import opened Wrappers
  import opened Seqs
  import opened PyDict
  import opened Layout
  import opened FontFeatures
  import opened TableRender
  import opened PageRecords

  datatype Category = Heading | Subheading | Content

  function Name(c: Category): string {
    match c
    case Heading => "heading"
    case Subheading => "subheading"
    case Content => "content"
  }

  /** The band of a text element. The scripts' parameters are called
      mean_size and std_dev but receive the median and the IQR. */
  function DistCategory(formats: seq<FontDetail>, median: real, iqr: real): Category {
    if formats == [] then Content
    else
      var size := formats[0].size;
      if size > median + 1.0 * iqr then Heading
      else if median + 0.25 * iqr < size <= median + 1.0 * iqr then Subheading
      else Content
  }

  /** Each band as a condition on the first size: above median + IQR is a
      heading; above median + IQR/4 and up to median + IQR inclusive is a
      subheading; anything else, and an element without formats, is content. */
  lemma DistBands(formats: seq<FontDetail>, median: real, iqr: real)
    ensures DistCategory(formats, median, iqr) == Heading
        <==> formats != [] && formats[0].size > median + iqr
    ensures DistCategory(formats, median, iqr) == Subheading
        <==> formats != [] && median + 0.25 * iqr < formats[0].size <= median + iqr
    ensures DistCategory(formats, median, iqr) == Content
        <==> formats == [] || (formats[0].size <= median + iqr && formats[0].size <= median + 0.25 * iqr)
  {
  }

  /** The boundaries: a size exactly at median + IQR is a subheading (for a
      positive IQR), and one exactly at median + IQR/4 is content (for a
      non-negative IQR; a negative one makes it a heading). */
  lemma DistBoundaries(f: FontDetail, rest: seq<FontDetail>, median: real, iqr: real)
    ensures iqr > 0.0 && f.size == median + iqr ==> DistCategory([f] + rest, median, iqr) == Subheading
    ensures iqr >= 0.0 && f.size == median + 0.25 * iqr ==> DistCategory([f] + rest, median, iqr) == Content
  {
  }

  /** Only the first format counts. */
  lemma DistFirstOnly(f: FontDetail, rest1: seq<FontDetail>, rest2: seq<FontDetail>, median: real, iqr: real)
    ensures DistCategory([f] + rest1, median, iqr) == DistCategory([f] + rest2, median, iqr)
  {
  }

  function Rank(c: Category): nat {
    match c
    case Content => 0
    case Subheading => 1
    case Heading => 2
  }

  /** With a non-negative IQR, a larger first size never gets a lower band. */
  lemma DistMonotone(f: FontDetail, g: FontDetail, median: real, iqr: real)
    requires iqr >= 0.0 && f.size <= g.size
    ensures Rank(DistCategory([f], median, iqr)) <= Rank(DistCategory([g], median, iqr))
  {
  }

  /** 1 when classifying these formats increments the counter of c. */
  function Tally(formats: seq<FontDetail>, median: real, iqr: real, c: Category): nat {
    if formats != [] && DistCategory(formats, median, iqr) == c then 1 else 0
  }

  /** The module-level counters heading_count, subheading_count and
      content_count. */
  class Counters {
    var headingCount: nat
    var subheadingCount: nat
    var contentCount: nat

    constructor ()
      ensures headingCount == 0 && subheadingCount == 0 && contentCount == 0
    {
      headingCount := 0;
      subheadingCount := 0;
      contentCount := 0;
    }

    /** categorize_text_based_on_dist: the single-entry dictionary from the
        band's name to the text. With formats, exactly the band's counter
        goes up by one; without, no counter changes. */
    method CategorizeTextBasedOnDist(lineText: string, formatPerLine: seq<FontDetail>, meanSize: real, stdDev: real)
      returns (categorized: Dict<string, string>)
      modifies this
      ensures categorized == [(Name(DistCategory(formatPerLine, meanSize, stdDev)), lineText)]
      ensures headingCount == old(headingCount) + Tally(formatPerLine, meanSize, stdDev, Heading)
      ensures subheadingCount == old(subheadingCount) + Tally(formatPerLine, meanSize, stdDev, Subheading)
      ensures contentCount == old(contentCount) + Tally(formatPerLine, meanSize, stdDev, Content)
    {
      var category := "content";
      if formatPerLine != [] {
        var currentSize := formatPerLine[0].size;
        if currentSize > meanSize + 1.0 * stdDev {
          category := "heading";
          headingCount := headingCount + 1;
        } else if meanSize + 0.25 * stdDev < currentSize <= meanSize + 1.0 * stdDev {
          category := "subheading";
          subheadingCount := subheadingCount + 1;
        } else {
          contentCount := contentCount + 1;
        }
      }
      categorized := [(category, lineText)];
    }
  }

  // ---------------------------------------------------------------------
  // A page

  /** The texts of the text elements in band c, in order. */
  function Bucket(els: seq<Element>, median: real, iqr: real, c: Category): seq<string> {
    if els == [] then []
    else
      var e := els[|els| - 1];
      Bucket(els[..|els| - 1], median, iqr, c)
        + (if e.TextBox? && DistCategory(LineFormats(e.children), median, iqr) == c then [BoxText(e.children)] else [])
  }

  /** How much the page raises the counter of c. */
  function PageTally(els: seq<Element>, median: real, iqr: real, c: Category): nat {
    if els == [] then 0
    else
      var e := els[|els| - 1];
      PageTally(els[..|els| - 1], median, iqr, c)
        + (if e.TextBox? then Tally(LineFormats(e.children), median, iqr, c) else 0)
  }

  /** page_content[name].append(text) for a band's name: that band's list,
      and only that one, gains the text. */
  lemma AppendName(pc: PageContent, c: Category, text: string)
    ensures AppendTo(pc, Name(c), text).Ok?
    ensures AppendTo(pc, Name(c), text).value == match c
      case Heading => pc.(heading := pc.heading + [text])
      case Subheading => pc.(subheading := pc.subheading + [text])
      case Content => pc.(content := pc.content + [text])
  {
  }

  /** One more element extends each list and each tally by that element's
      share. */
  lemma BucketStep(els: seq<Element>, i: nat, median: real, iqr: real, c: Category)
    requires i < |els|
    ensures Bucket(els[..i + 1], median, iqr, c) == Bucket(els[..i], median, iqr, c)
      + (if els[i].TextBox? && DistCategory(LineFormats(els[i].children), median, iqr) == c then [BoxText(els[i].children)] else [])
    ensures PageTally(els[..i + 1], median, iqr, c) == PageTally(els[..i], median, iqr, c)
      + (if els[i].TextBox? then Tally(LineFormats(els[i].children), median, iqr, c) else 0)
  {
    TakeTake(els, i);
  }

  /** The lists of pc are those of pc0 followed by the bands of els. */
  predicate Extends(pc: PageContent, pc0: PageContent, els: seq<Element>, median: real, iqr: real) {
    && pc.heading == pc0.heading + Bucket(els, median, iqr, Heading)
    && pc.subheading == pc0.subheading + Bucket(els, median, iqr, Subheading)
    && pc.content == pc0.content + Bucket(els, median, iqr, Content)
    && pc.images == pc0.images && pc.tables == pc0.tables
  }

  /** Appending the next text element under its band's name extends the
      lists by that element. */
  lemma TextElementStep(pc: PageContent, pc0: PageContent, els: seq<Element>, i: nat, median: real, iqr: real)
    requires i < |els| && els[i].TextBox?
    requires Extends(pc, pc0, els[..i], median, iqr)
    ensures AppendTo(pc, Name(DistCategory(LineFormats(els[i].children), median, iqr)), BoxText(els[i].children)).Ok?
    ensures Extends(AppendTo(pc, Name(DistCategory(LineFormats(els[i].children), median, iqr)), BoxText(els[i].children)).value,
                    pc0, els[..i + 1], median, iqr)
  {
    var c := DistCategory(LineFormats(els[i].children), median, iqr);
    var t := BoxText(els[i].children);
    AppendName(pc, c, t);
    forall d: Category ensures Bucket(els[..i + 1], median, iqr, d) == Bucket(els[..i], median, iqr, d) + (if d == c then [t] else []) {
      BucketStep(els, i, median, iqr, d);
    }
    assert pc0.heading + Bucket(els[..i], median, iqr, Heading) + [t] == pc0.heading + (Bucket(els[..i], median, iqr, Heading) + [t]);
    assert pc0.subheading + Bucket(els[..i], median, iqr, Subheading) + [t] == pc0.subheading + (Bucket(els[..i], median, iqr, Subheading) + [t]);
    assert pc0.content + Bucket(els[..i], median, iqr, Content) + [t] == pc0.content + (Bucket(els[..i], median, iqr, Content) + [t]);
  }

  /** Any other element leaves the lists as they are. */
  lemma OtherElementStep(pc: PageContent, pc0: PageContent, els: seq<Element>, i: nat, median: real, iqr: real)
    requires i < |els| && !els[i].TextBox?
    requires Extends(pc, pc0, els[..i], median, iqr)
    ensures Extends(pc, pc0, els[..i + 1], median, iqr)
  {
    BucketStep(els, i, median, iqr, Heading);
    BucketStep(els, i, median, iqr, Subheading);
    BucketStep(els, i, median, iqr, Content);
  }

  /** The categorising loop of process_page: every text element of the
      sorted page, in order, is classified and appended to its band's list. */
  method CategorizeElements(counters: Counters, pageElements: seq<Element>, pageContent: PageContent,
                            meanSize: real, stdDev: real)
    returns (pageContent': PageContent)
    modifies counters
    ensures pageContent' == pageContent.(
      heading := pageContent.heading + Bucket(pageElements, meanSize, stdDev, Heading),
      subheading := pageContent.subheading + Bucket(pageElements, meanSize, stdDev, Subheading),
      content := pageContent.content + Bucket(pageElements, meanSize, stdDev, Content))
    ensures counters.headingCount == old(counters.headingCount) + PageTally(pageElements, meanSize, stdDev, Heading)
    ensures counters.subheadingCount == old(counters.subheadingCount) + PageTally(pageElements, meanSize, stdDev, Subheading)
    ensures counters.contentCount == old(counters.contentCount) + PageTally(pageElements, meanSize, stdDev, Content)
  {
    pageContent' := pageContent;
    ghost var h0, s0, c0 := counters.headingCount, counters.subheadingCount, counters.contentCount;
    var i := 0;
    while i < |pageElements|
      invariant 0 <= i <= |pageElements|
      invariant Extends(pageContent', pageContent, pageElements[..i], meanSize, stdDev)
      invariant counters.headingCount == h0 + PageTally(pageElements[..i], meanSize, stdDev, Heading)
      invariant counters.subheadingCount == s0 + PageTally(pageElements[..i], meanSize, stdDev, Subheading)
      invariant counters.contentCount == c0 + PageTally(pageElements[..i], meanSize, stdDev, Content)
    {
      var element := pageElements[i];
      BucketStep(pageElements, i, meanSize, stdDev, Heading);
      BucketStep(pageElements, i, meanSize, stdDev, Subheading);
      BucketStep(pageElements, i, meanSize, stdDev, Content);
      if element.TextBox? {
        var lineText, formatPerLine := ExtractText(element.children);
        var categorized := counters.CategorizeTextBasedOnDist(lineText, formatPerLine, meanSize, stdDev);
        var (category, text) := categorized[0];
        TextElementStep(pageContent', pageContent, pageElements, i, meanSize, stdDev);
        var added := AppendTo(pageContent', category, text);
        pageContent' := added.value;
      } else {
        OtherElementStep(pageContent', pageContent, pageElements, i, meanSize, stdDev);
      }
      i := i + 1;
    }
    TakeAll(pageElements, i);
  }

  /** process_page of the distribution script. */
  method ProcessPage(counters: Counters, elements: seq<Element>, grids: seq<seq<seq<Cell>>>,
                     ocr: Element -> string, meanSize: real, stdDev: real)
    returns (pageContent: PageContent)
    modifies counters
    ensures pageContent == DistContent(PageLayout(elements, grids), ocr, meanSize, stdDev)
    ensures counters.headingCount == old(counters.headingCount) + PageTally(SortByTop(elements), meanSize, stdDev, Heading)
    ensures counters.subheadingCount == old(counters.subheadingCount) + PageTally(SortByTop(elements), meanSize, stdDev, Subheading)
    ensures counters.contentCount == old(counters.contentCount) + PageTally(SortByTop(elements), meanSize, stdDev, Content)
  {
    pageContent := EmptyContent();
    var pageElements := SortByTop(elements);
    var images := ExtractAndProcessImages(pageElements, ocr);
    FigureTextsOfFigures(pageElements, ocr);
    assert images == FigureTexts(pageElements, ocr);
    pageContent := pageContent.(images := images);
    pageContent := CategorizeElements(counters, pageElements, pageContent, meanSize, stdDev);
    var tables := ProcessTables(grids);
    assert tables == RenderAll(grids);
    pageContent := pageContent.(tables := tables);
  }

  /** Every text element lands in exactly one of the three lists, and the
      heading and subheading counters rise by the lengths of their lists (the
      content counter by at most its list's length: an element without
      formats is content but is not counted). */
  lemma {:induction false} BucketsPartition(els: seq<Element>, median: real, iqr: real)
    ensures |Bucket(els, median, iqr, Heading)| + |Bucket(els, median, iqr, Subheading)|
            + |Bucket(els, median, iqr, Content)| == |BoxTexts(els)|
    ensures PageTally(els, median, iqr, Heading) == |Bucket(els, median, iqr, Heading)|
    ensures PageTally(els, median, iqr, Subheading) == |Bucket(els, median, iqr, Subheading)|
    ensures PageTally(els, median, iqr, Content) <= |Bucket(els, median, iqr, Content)|
  {
    if els != [] {
      BucketsPartition(els[..|els| - 1], median, iqr);
    }
  }

  /** Each list keeps page order: it is an ordered selection of the texts of
      all text elements. */
  lemma {:induction false} BucketInOrder(els: seq<Element>, median: real, iqr: real, c: Category)
    ensures Embeds(Bucket(els, median, iqr, c), BoxTexts(els))
  {
    if els != [] {
      var p := els[..|els| - 1];
      var e := els[|els| - 1];
      BucketInOrder(p, median, iqr, c);
      if e.TextBox? {
        var t := BoxText(e.children);
        assert BoxTexts(els) == BoxTexts(p) + [t];
        if DistCategory(LineFormats(e.children), median, iqr) == c {
          assert Bucket(els, median, iqr, c) == Bucket(p, median, iqr, c) + [t];
          EmbedsSnoc(Bucket(p, median, iqr, c), BoxTexts(p), t);
        } else {
          var b := Bucket(p, median, iqr, c);
          assert Bucket(els, median, iqr, c) == b + [] == b;
          EmbedsGrow(b, BoxTexts(p), t);
        }
      } else {
        assert BoxTexts(els) == BoxTexts(p) + [] == BoxTexts(p);
        assert Bucket(els, median, iqr, c) == Bucket(p, median, iqr, c) + [] == Bucket(p, median, iqr, c);
      }
    }
  }

  // ---------------------------------------------------------------------
  // The document

  /** The content dictionary promised for a page. */
  function DistContent(page: PageLayout, ocr: Element -> string, median: real, iqr: real): PageContent {
    var sorted := SortByTop(page.elements);
    PageContent(
      Bucket(sorted, median, iqr, Heading),
      Bucket(sorted, median, iqr, Subheading),
      Bucket(sorted, median, iqr, Content),
      FigureTexts(sorted, ocr),
      RenderAll(page.grids))
  }

  /** How much the first n pages raise the counter of c. */
  function DocumentTally(pages: seq<PageLayout>, median: real, iqr: real, c: Category, n: nat): nat
    requires n <= |pages|
  {
    if n == 0 then 0
    else DocumentTally(pages, median, iqr, c, n - 1) + PageTally(SortByTop(pages[n - 1].elements), median, iqr, c)
  }

  /** The content dictionaries of all pages, in page order. */
  function DistContents(pages: seq<PageLayout>, ocr: nat -> Element -> string, median: real, iqr: real): seq<PageContent> {
    seq(|pages|, k requires 0 <= k < |pages| => DistContent(pages[k], ocr(k), median, iqr))
  }

  /** The page loop of main: text_per_page holds every page's content
      dictionary under "Page_0", "Page_1", ... in page order, and the
      counters end up raised by every page's tally. The recogniser is given
      per page. */
  method ExtractDocument(counters: Counters, pages: seq<PageLayout>, ocr: nat -> Element -> string,
                         median: real, iqr: real)
    returns (textPerPage: Dict<string, PageContent>)
    modifies counters
    ensures textPerPage == PagesDict(DistContents(pages, ocr, median, iqr))
    ensures counters.headingCount == old(counters.headingCount) + DocumentTally(pages, median, iqr, Heading, |pages|)
    ensures counters.subheadingCount == old(counters.subheadingCount) + DocumentTally(pages, median, iqr, Subheading, |pages|)
    ensures counters.contentCount == old(counters.contentCount) + DocumentTally(pages, median, iqr, Content, |pages|)
  {
    textPerPage := [];
    ghost var contents := DistContents(pages, ocr, median, iqr);
    ghost var h0, s0, c0 := counters.headingCount, counters.subheadingCount, counters.contentCount;
    var pagenum := 0;
    assert contents[..0] == [];
    while pagenum < |pages|
      invariant 0 <= pagenum <= |pages|
      invariant textPerPage == PagesDict(contents[..pagenum])
      invariant counters.headingCount == h0 + DocumentTally(pages, median, iqr, Heading, pagenum)
      invariant counters.subheadingCount == s0 + DocumentTally(pages, median, iqr, Subheading, pagenum)
      invariant counters.contentCount == c0 + DocumentTally(pages, median, iqr, Content, pagenum)
    {
      var page := pages[pagenum];
      var pageContent := ProcessPage(counters, page.elements, page.grids, ocr(pagenum), median, iqr);
      assert pageContent == contents[pagenum] by {
        assert PageLayout(page.elements, page.grids) == page;
      }
      ghost var prefix := contents[..pagenum];
      PagesDictSnoc(prefix, pageContent);
      textPerPage := Put(textPerPage, PageKey(pagenum), pageContent);
      assert textPerPage == PagesDict(prefix + [pageContent]);
      TakeSnoc(contents, pagenum);
      pagenum := pagenum + 1;
    }
    TakeAll(contents, pagenum);
  }
}
