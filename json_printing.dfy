/** The JSON-printing script: every text element of a page contributes its
    subheader-to-content dictionary, merged into one dictionary per page,
    and each page becomes a record that carries that dictionary. */
module JsonPrinting {
  import opened Wrappers
  import opened Seqs
  import opened PyStr
  import opened PyDict
  import opened Layout
  import opened TableRender
  import opened WordRuns
  import opened PageRecords

  /** The dictionary page_content of this script. */
  datatype PrintedContent = PrintedContent(subheading: Dict<string, string>, images: seq<string>, tables: seq<string>)

  /** The subheader-to-content dictionary extract_text returns for a box. */
  function BoxDict(children: seq<Child>): Dict<string, string> {
    SubheaderDict(RunTexts(Group(ElementStarts(children))))
  }

  lemma BoxDictDistinct(children: seq<Child>)
    ensures DistinctKeys(BoxDict(children))
  {
    var a := Alternate(RunTexts(Group(ElementStarts(children))));
    PairDictDistinct(a.pairs);
    if a.pending.Some? {
      PutDistinct(PairDict(a.pairs), a.pending.value, "");
    }
  }

  /** page_content["subheading"] after the given elements: each text
      element's dictionary merged in with update(), in order. */
  function Merged(els: seq<Element>): Dict<string, string> {
    if els == [] then []
    else
      var e := els[|els| - 1];
      var d := Merged(els[..|els| - 1]);
      if e.TextBox? then Update(d, BoxDict(e.children)) else d
  }

  /** The value a subheader has in the last text element that has it. */
  function LastWith(els: seq<Element>, k: string): Option<string> {
    if els == [] then None
    else
      var e := els[|els| - 1];
      if e.TextBox? && k in Keys(BoxDict(e.children)) then Get(BoxDict(e.children), k)
      else LastWith(els[..|els| - 1], k)
  }

  /** A subheader that occurs in several text elements of a page keeps the
      content of the last one; a subheader occurring in none is absent. */
  lemma {:induction false} MergedLastWins(els: seq<Element>, k: string)
    ensures Get(Merged(els), k) == LastWith(els, k)
  {
    if els != [] {
      var e := els[|els| - 1];
      MergedLastWins(els[..|els| - 1], k);
      if e.TextBox? {
        BoxDictDistinct(e.children);
        UpdateGet(Merged(els[..|els| - 1]), BoxDict(e.children), k);
      }
    }
  }

  /** The content dictionary promised for a page. */
  function PrintedPage(page: PageLayout, ocr: Element -> string): PrintedContent {
    var sorted := SortByTop(page.elements);
    PrintedContent(Merged(sorted), FigureTexts(sorted, ocr), RenderAll(page.grids))
  }

  /** process_page of the JSON-printing script. */
  method ProcessPage(elements: seq<Element>, grids: seq<seq<seq<Cell>>>, ocr: Element -> string)
    returns (pageContent: PrintedContent)
    ensures pageContent == PrintedPage(PageLayout(elements, grids), ocr)
  {
    pageContent := PrintedContent([], [], []);
    var pageElements := SortByTop(elements);
    var images := ExtractAndProcessImages(pageElements, ocr);
    FigureTextsOfFigures(pageElements, ocr);
    assert images == FigureTexts(pageElements, ocr);
    pageContent := pageContent.(images := images);
    var i := 0;
    while i < |pageElements|
      invariant 0 <= i <= |pageElements|
      invariant pageContent == PrintedContent(Merged(pageElements[..i]), images, [])
    {
      var element := pageElements[i];
      TakeTake(pageElements, i);
      if element.TextBox? {
        var _, extractedTextsDict := ExtractTextRuns(element.children);
        pageContent := pageContent.(subheading := Update(pageContent.subheading, extractedTextsDict));
      }
      i := i + 1;
    }
    TakeAll(pageElements, i);
    var tables := ProcessTables(grids);
    assert tables == RenderAll(grids);
    pageContent := pageContent.(tables := tables);
  }

  function PrintedPages(pages: seq<PageLayout>, ocr: nat -> Element -> string): seq<PrintedContent> {
    seq(|pages|, k requires 0 <= k < |pages| => PrintedPage(pages[k], ocr(k)))
  }

  /** The page loop of main: every page's dictionary under "Page_0",
      "Page_1", ... in page order. */
  method ExtractDocument(pages: seq<PageLayout>, ocr: nat -> Element -> string)
    returns (textPerPage: Dict<string, PrintedContent>)
    ensures textPerPage == PagesDict(PrintedPages(pages, ocr))
  {
    textPerPage := [];
    ghost var contents := PrintedPages(pages, ocr);
    var pagenum := 0;
    assert contents[..0] == [];
    while pagenum < |pages|
      invariant 0 <= pagenum <= |pages|
      invariant textPerPage == PagesDict(contents[..pagenum])
    {
      var page := pages[pagenum];
      var pageContent := ProcessPage(page.elements, page.grids, ocr(pagenum));
      assert pageContent == contents[pagenum] by {
        assert PageLayout(page.elements, page.grids) == page;
      }
      ghost var prefix := contents[..pagenum];
      PagesDictSnoc(prefix, pageContent);
      textPerPage := Put(textPerPage, PageKey(pagenum), pageContent);
      TakeSnoc(contents, pagenum);
      pagenum := pagenum + 1;
    }
    TakeAll(contents, pagenum);
  }

  /** The record of one page in this script's output: no header or content
      field, and the subheader is the page's dictionary itself. */
  datatype JsonRecord = JsonRecord(
    documentId: string,
    documentTitle: string,
    documentUrl: string,
    pageNumber: string,
    subheader: Dict<string, string>,
    tableText: string,
    imageText: string,
    vector: string,
    traceability: Traceability)

  /** The record built for the entry (key, pc): f"Page_{key}" as page
      number and f"n{key}" as location. */
  predicate JsonRecordOf(r: JsonRecord, key: string, pc: PrintedContent) {
    && r.documentId == "" && r.documentTitle == "" && r.documentUrl == PdfPath
    && r.pageNumber == "Page_" + key
    && r.subheader == pc.subheading
    && r.tableText == Join("\n", pc.tables)
    && r.imageText == Join("\n", pc.images)
    && r.vector == Vector
    && r.traceability == Traceability(Source, "", "n" + key)
  }

  /** structure_pdf_data of the JSON-printing script, as written. */
  method StructurePdfData(textPerPage: Dict<string, PrintedContent>) returns (data: seq<JsonRecord>)
    ensures |data| == |textPerPage|
    ensures forall k :: 0 <= k < |data| ==> JsonRecordOf(data[k], textPerPage[k].0, textPerPage[k].1)
  {
    data := [];
    var i := 0;
    while i < |textPerPage|
      invariant 0 <= i <= |textPerPage|
      invariant |data| == i
      invariant forall k :: 0 <= k < i ==> JsonRecordOf(data[k], textPerPage[k].0, textPerPage[k].1)
    {
      var (pageNum, contentDict) := textPerPage[i];
      var pageData := JsonRecord(
        "", "", PdfPath, "Page_" + pageNum,
        contentDict.subheading,
        Join("\n", contentDict.tables),
        Join("\n", contentDict.images),
        Vector,
        Traceability(Source, "", "n" + pageNum));
      data := data + [pageData];
      i := i + 1;
    }
  }

  /** As written, the keys main stores are already "Page_<n>", so every
      record's page number carries the prefix twice and its location reads
      "nPage_<n>": the record of page 0 says "Page_Page_0" and "nPage_0". */
  lemma DoubledPageNumber(pages: seq<PageLayout>, ocr: nat -> Element -> string, data: seq<JsonRecord>)
    requires |pages| > 0
    requires |data| == |pages|
    requires forall k :: 0 <= k < |data| ==>
      JsonRecordOf(data[k], PagesDict(PrintedPages(pages, ocr))[k].0, PagesDict(PrintedPages(pages, ocr))[k].1)
    ensures data[0].pageNumber == "Page_Page_0"
    ensures data[0].traceability.exactLocation == "nPage_0"
  {
    assert PagesDict(PrintedPages(pages, ocr))[0].0 == PageKey(0);
    assert NatToString(0) == "0";
  }

  /** The record as evidently intended, and as the other two scripts build
      it: the key itself as page number and as location. */
  predicate KeyedRecordOf(r: JsonRecord, key: string, pc: PrintedContent) {
    && r.documentId == "" && r.documentTitle == "" && r.documentUrl == PdfPath
    && r.pageNumber == key
    && r.subheader == pc.subheading
    && r.tableText == Join("\n", pc.tables)
    && r.imageText == Join("\n", pc.images)
    && r.vector == Vector
    && r.traceability == Traceability(Source, "", key)
  }

  /** structure_pdf_data with the page key used as it is. */
  method StructureKeyedPdfData(textPerPage: Dict<string, PrintedContent>) returns (data: seq<JsonRecord>)
    ensures |data| == |textPerPage|
    ensures forall k :: 0 <= k < |data| ==> KeyedRecordOf(data[k], textPerPage[k].0, textPerPage[k].1)
  {
    data := [];
    var i := 0;
    while i < |textPerPage|
      invariant 0 <= i <= |textPerPage|
      invariant |data| == i
      invariant forall k :: 0 <= k < i ==> KeyedRecordOf(data[k], textPerPage[k].0, textPerPage[k].1)
    {
      var (pageNum, contentDict) := textPerPage[i];
      var pageData := JsonRecord(
        "", "", PdfPath, pageNum,
        contentDict.subheading,
        Join("\n", contentDict.tables),
        Join("\n", contentDict.images),
        Vector,
        Traceability(Source, "", pageNum));
      data := data + [pageData];
      i := i + 1;
    }
  }

  /** With the corrected records, page k of the document is labelled
      "Page_<k>", and different pages get different labels. */
  lemma KeyedPageNumbers(pages: seq<PageLayout>, ocr: nat -> Element -> string, data: seq<JsonRecord>, k: nat, j: nat)
    requires |data| == |pages| && k < |pages| && j < |pages|
    requires forall i :: 0 <= i < |data| ==>
      KeyedRecordOf(data[i], PagesDict(PrintedPages(pages, ocr))[i].0, PagesDict(PrintedPages(pages, ocr))[i].1)
    ensures data[k].pageNumber == PageKey(k) && data[k].traceability.exactLocation == PageKey(k)
    ensures data[k].subheader == PrintedPage(pages[k], ocr(k)).subheading
    ensures k != j ==> data[k].pageNumber != data[j].pageNumber
  {
    assert PagesDict(PrintedPages(pages, ocr))[k] == (PageKey(k), PrintedPages(pages, ocr)[k]);
    assert PagesDict(PrintedPages(pages, ocr))[j] == (PageKey(j), PrintedPages(pages, ocr)[j]);
    if k != j && data[k].pageNumber == data[j].pageNumber {
      PageKeyInjective(k, j);
    }
  }
}
