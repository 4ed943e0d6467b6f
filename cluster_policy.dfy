/** The cluster script's classifier: font names are encoded as numbers, the
    (encoded name, size) points are clustered into three clusters, the
    clusters are ranked by size (smallest: heading, middle: subheading,
    largest: content), and a text element is assigned the category of the
    cluster its average (encoded name, size) point falls in. The clustering
    itself and the prediction are inputs. */
module ClusterPolicy {
  import opened Wrappers
  import opened Seqs
  import opened PyStr
  import opened PyDict
  import opened Layout
  import opened FontFeatures
  import opened TableRender
  import opened PageRecords

  // ---------------------------------------------------------------------
  // LabelEncoder: each distinct name is numbered by its rank in sorted order

  /** How many entries of ns sort before x. */
  function CountLess(ns: seq<string>, x: string): (n: nat)
    ensures n <= |ns|
  {
    if ns == [] then 0
    else CountLess(ns[..|ns| - 1], x) + (if StrLess(ns[|ns| - 1], x) then 1 else 0)
  }

  /** LabelEncoder().fit_transform(names) at a name x: the number of
      distinct names that sort before x. */
  function Encode(names: seq<string>, x: string): nat {
    CountLess(Dedup(names), x)
  }

  lemma {:induction false} CountLessBelow(ns: seq<string>, x: string)
    ensures CountLess(ns, x) + (if x in ns then 1 else 0) <= |ns|
  {
    if ns != [] {
      var p := ns[..|ns| - 1];
      var z := ns[|ns| - 1];
      assert ns == p + [z];
      CountLessBelow(p, x);
      if z == x {
        StrLessIrreflexive(x);
      }
    }
  }

  lemma {:induction false} CountLessMonotone(ns: seq<string>, x: string, y: string)
    requires NoDup(ns) && StrLess(x, y)
    ensures CountLess(ns, x) + (if x in ns then 1 else 0) <= CountLess(ns, y)
  {
    if ns != [] {
      var p := ns[..|ns| - 1];
      var z := ns[|ns| - 1];
      assert ns == p + [z];
      assert NoDup(p);
      CountLessMonotone(p, x, y);
      if StrLess(z, x) {
        StrLessTransitive(z, x, y);
      }
      if z == x {
        StrLessIrreflexive(x);
        assert x !in p;
      }
    }
  }

  /** The codes of the names are 0 .. k-1 for k distinct names. */
  lemma EncodeRange(names: seq<string>, x: string)
    requires x in names
    ensures Encode(names, x) < |Dedup(names)|
  {
    CountLessBelow(Dedup(names), x);
  }

  /** The codes follow the order of the names, so different names get
      different codes. */
  lemma EncodeOrder(names: seq<string>, x: string, y: string)
    requires x in names && StrLess(x, y)
    ensures Encode(names, x) < Encode(names, y)
  {
    CountLessMonotone(Dedup(names), x, y);
  }

  lemma EncodeInjective(names: seq<string>, x: string, y: string)
    requires x in names && y in names && Encode(names, x) == Encode(names, y)
    ensures x == y
  {
    if x != y {
      StrLessTotal(x, y);
      if StrLess(x, y) {
        EncodeOrder(names, x, y);
      } else {
        EncodeOrder(names, y, x);
      }
    }
  }

  // ---------------------------------------------------------------------
  // The point a text element is classified by

  function Names(metadata: seq<FontDetail>): seq<string> {
    seq(|metadata|, k requires 0 <= k < |metadata| => metadata[k].fontname)
  }

  function Sizes(metadata: seq<FontDetail>): seq<real> {
    seq(|metadata|, k requires 0 <= k < |metadata| => metadata[k].size)
  }

  function EncodedFonts(metadata: seq<FontDetail>): seq<real> {
    seq(|metadata|, k requires 0 <= k < |metadata| => Encode(Names(metadata), metadata[k].fontname) as real)
  }

  /** [avg_encoded_font, avg_font_size]; both are 0 for an element without
      formats. The names are re-encoded among the element's own names. */
  function Query(metadata: seq<FontDetail>): (real, real) {
    if metadata == [] then (0.0, 0.0)
    else (Mean(EncodedFonts(metadata)), Mean(Sizes(metadata)))
  }

  /** The average code lies between 0 and the number of distinct names less
      one, and the average size between any bounds of the sizes. */
  lemma QueryBounds(metadata: seq<FontDetail>, lo: real, hi: real)
    requires metadata != []
    requires forall k :: 0 <= k < |metadata| ==> lo <= metadata[k].size <= hi
    ensures 0.0 <= Query(metadata).0 <= (|Dedup(Names(metadata))| - 1) as real
    ensures lo <= Query(metadata).1 <= hi
  {
    var names := Names(metadata);
    var top := (|Dedup(names)| - 1) as real;
    forall k | 0 <= k < |metadata| ensures 0.0 <= EncodedFonts(metadata)[k] <= top {
      assert names[k] in names;
      EncodeRange(names, names[k]);
    }
    MeanBounds(EncodedFonts(metadata), 0.0, top);
    MeanBounds(Sizes(metadata), lo, hi);
  }

  // ---------------------------------------------------------------------
  // Ranking the clusters

  /** Counter(labels)[l] */
  function Count(labels: seq<int>, l: int): nat {
    if labels == [] then 0
    else Count(labels[..|labels| - 1], l) + (if labels[|labels| - 1] == l then 1 else 0)
  }

  /** sorted(Counter(labels), key=counts.get): the distinct labels in
      first-seen order, stably sorted by ascending count. */
  function SortedClusters(labels: seq<int>): seq<int> {
    SortBy(Dedup(labels), l => Count(labels, l) as real)
  }

  /** The dictionary font_clusters, or the IndexError raised when fewer than
      three clusters occur. */
  function InitializeFontClusters(labels: seq<int>): (r: Result<Dict<string, int>, PyException>)
    ensures r.Ok? <==> |Dedup(labels)| >= 3
    ensures r.Err? ==> r.error == IndexError
    ensures r.Ok? ==> Keys(r.value) == ["content", "subheading", "heading"]
  {
    var s := SortedClusters(labels);
    if |s| < 3 then Err(IndexError)
    else
      var d := [("content", s[2]), ("subheading", s[1]), ("heading", s[0])];
      assert Keys(d) == [d[0].0, d[1].0, d[2].0];
      Ok(d)
  }

  /** The heading cluster is the smallest of the three, then subheading,
      then content; they are three different clusters, each occurring among
      the labels, and no other cluster is smaller than content's. */
  lemma ClustersBySize(labels: seq<int>)
    requires InitializeFontClusters(labels).Ok?
    ensures var d := InitializeFontClusters(labels).value;
      && Count(labels, d[2].1) <= Count(labels, d[1].1) <= Count(labels, d[0].1)
      && d[0].1 != d[1].1 && d[1].1 != d[2].1 && d[0].1 != d[2].1
      && d[0].1 in labels && d[1].1 in labels && d[2].1 in labels
    ensures forall k :: 3 <= k < |SortedClusters(labels)| ==>
      Count(labels, InitializeFontClusters(labels).value[0].1) <= Count(labels, SortedClusters(labels)[k])
  {
    var key := l => Count(labels, l) as real;
    var s := SortedClusters(labels);
    SortBySorted(Dedup(labels), key);
    SortByPerm(Dedup(labels), key);
    NoDupPermutation(Dedup(labels), s);
    assert key(s[0]) <= key(s[1]) <= key(s[2]);
    forall k | 0 <= k < 3 ensures s[k] in labels {
      assert s[k] in multiset(Dedup(labels));
    }
    forall k | 3 <= k < |s| ensures Count(labels, s[2]) <= Count(labels, s[k]) {
      assert key(s[2]) <= key(s[k]);
    }
  }

  /** Clusters of equal size are ranked in the order in which their labels
      first occur: the earlier one is taken as the smaller. */
  lemma ClusterTies(labels: seq<int>, i: nat, j: nat)
    requires i < j < |SortedClusters(labels)|
    requires Count(labels, SortedClusters(labels)[i]) == Count(labels, SortedClusters(labels)[j])
    ensures SortedClusters(labels)[i] in labels && SortedClusters(labels)[j] in labels
    ensures FirstIndex(labels, SortedClusters(labels)[i]) < FirstIndex(labels, SortedClusters(labels)[j])
  {
    var key := l => Count(labels, l) as real;
    var s := SortedClusters(labels);
    var d := Dedup(labels);
    SortByKeepsTies(d, key, i, j);
    var a, b :| 0 <= a < b < |d| && d[a] == s[i] && d[b] == s[j];
    DedupFirstSeen(labels, a, b);
  }

  // ---------------------------------------------------------------------
  // Categorising one text element

  /** The position of the first entry of d whose value is v, or |d|. */
  function MatchIndex(d: Dict<string, int>, v: int): (i: nat)
    ensures i <= |d|
    ensures i < |d| ==> d[i].1 == v
    ensures forall j :: 0 <= j < i ==> d[j].1 != v
  {
    if d == [] then 0
    else if d[0].1 == v then 0
    else 1 + MatchIndex(d[1..], v)
  }

  /** next((cat for cat, n in font_clusters.items() if cluster == n),
      "content") for the predicted cluster of the element. */
  function ClusterCategory(metadata: seq<FontDetail>, predict: (real, real) -> int, clusters: Dict<string, int>): string {
    var q := Query(metadata);
    var i := MatchIndex(clusters, predict(q.0, q.1));
    if i < |clusters| then clusters[i].0 else "content"
  }

  /** categorize_text_based_on_clusters: ValueError when the clusters are
      missing or empty, otherwise the single-entry dictionary from the
      category to the text. */
  function CategorizeTextBasedOnClusters(text: string, metadata: seq<FontDetail>, predict: (real, real) -> int,
                                         fontClusters: Option<Dict<string, int>>)
    : (r: Result<Dict<string, string>, PyException>)
    ensures r.Err? <==> fontClusters.None? || fontClusters.value == []
    ensures r.Err? ==> r.error == ValueError
    ensures r.Ok? ==> |r.value| == 1 && r.value[0].1 == text
  {
    if fontClusters.None? || fontClusters.value == [] then Err(ValueError)
    else Ok([(ClusterCategory(metadata, predict, fontClusters.value), text)])
  }

  /** With the clusters initialised as above, an element is a heading
      exactly when it is predicted in the smallest cluster, a subheading
      exactly when in the middle one, and content otherwise. */
  lemma CategoryOfClusters(labels: seq<int>, metadata: seq<FontDetail>, predict: (real, real) -> int)
    requires InitializeFontClusters(labels).Ok?
    ensures var s := SortedClusters(labels);
      var c := predict(Query(metadata).0, Query(metadata).1);
      ClusterCategory(metadata, predict, InitializeFontClusters(labels).value)
        == if c == s[0] then "heading" else if c == s[1] then "subheading" else "content"
  {
    ClustersBySize(labels);
  }

  // ---------------------------------------------------------------------
  // A page

  /** The categorising loop of process_page over the given elements,
      starting from pc: the content dictionary, or the exception raised by
      the categoriser or by appending under a key that is not one of the
      five. */
  function ClusterRun(els: seq<Element>, pc: PageContent, predict: (real, real) -> int,
                      fontClusters: Option<Dict<string, int>>): Result<PageContent, PyException>
  {
    if els == [] then Ok(pc)
    else
      match ClusterRun(els[..|els| - 1], pc, predict, fontClusters)
      case Err(e) => Err(e)
      case Ok(pc') =>
        var e := els[|els| - 1];
        if !e.TextBox? then Ok(pc')
        else
          match CategorizeTextBasedOnClusters(BoxText(e.children), LineFormats(e.children), predict, fontClusters)
          case Err(x) => Err(x)
          case Ok(categorized) => AppendTo(pc', categorized[0].0, categorized[0].1)
  }

  lemma {:induction false} RunFailureStays(els: seq<Element>, pc: PageContent, predict: (real, real) -> int,
                                           fontClusters: Option<Dict<string, int>>, m: nat)
    requires m <= |els|
    requires ClusterRun(els[..m], pc, predict, fontClusters).Err?
    ensures ClusterRun(els, pc, predict, fontClusters) == ClusterRun(els[..m], pc, predict, fontClusters)
    decreases |els| - m
  {
    if m < |els| {
      TakeSnoc(els, m);
      TakeTake(els, m);
      RunFailureStays(els, pc, predict, fontClusters, m + 1);
    } else {
      TakeAll(els, m);
    }
  }

  /** The categorising loop of process_page. */
  method CategorizeElements(pageElements: seq<Element>, pageContent: PageContent, predict: (real, real) -> int,
                            fontClusters: Option<Dict<string, int>>)
    returns (r: Result<PageContent, PyException>)
    ensures r == ClusterRun(pageElements, pageContent, predict, fontClusters)
  {
    var pc := pageContent;
    var i := 0;
    while i < |pageElements|
      invariant 0 <= i <= |pageElements|
      invariant ClusterRun(pageElements[..i], pageContent, predict, fontClusters) == Ok(pc)
    {
      var element := pageElements[i];
      TakeTake(pageElements, i);
      if element.TextBox? {
        var lineText, formatPerLine := ExtractText(element.children);
        var categorized := CategorizeTextBasedOnClusters(lineText, formatPerLine, predict, fontClusters);
        if categorized.Err? {
          RunFailureStays(pageElements, pageContent, predict, fontClusters, i + 1);
          return Err(categorized.error);
        }
        var (category, text) := categorized.value[0];
        var added := AppendTo(pc, category, text);
        if added.Err? {
          RunFailureStays(pageElements, pageContent, predict, fontClusters, i + 1);
          return Err(added.error);
        }
        pc := added.value;
      }
      i := i + 1;
    }
    TakeAll(pageElements, i);
    r := Ok(pc);
  }

  /** What process_page promises: the figure texts, the categorised text
      elements of the sorted page, and the rendered tables. */
  function ClusterContent(page: PageLayout, ocr: Element -> string, predict: (real, real) -> int,
                          fontClusters: Option<Dict<string, int>>): Result<PageContent, PyException>
  {
    var sorted := SortByTop(page.elements);
    match ClusterRun(sorted, EmptyContent().(images := FigureTexts(sorted, ocr)), predict, fontClusters)
    case Err(e) => Err(e)
    case Ok(pc) => Ok(pc.(tables := RenderAll(page.grids)))
  }

  /** process_page of the cluster script. */
  method ProcessPage(elements: seq<Element>, grids: seq<seq<seq<Cell>>>, ocr: Element -> string,
                     predict: (real, real) -> int, fontClusters: Option<Dict<string, int>>)
    returns (r: Result<PageContent, PyException>)
    ensures r == ClusterContent(PageLayout(elements, grids), ocr, predict, fontClusters)
  {
    var pageContent := EmptyContent();
    var pageElements := SortByTop(elements);
    var images := ExtractAndProcessImages(pageElements, ocr);
    FigureTextsOfFigures(pageElements, ocr);
    assert images == FigureTexts(pageElements, ocr);
    pageContent := pageContent.(images := images);
    var categorized := CategorizeElements(pageElements, pageContent, predict, fontClusters);
    if categorized.Err? {
      return Err(categorized.error);
    }
    pageContent := categorized.value;
    var tables := ProcessTables(grids);
    assert tables == RenderAll(grids);
    r := Ok(pageContent.(tables := tables));
  }

  /** The texts of the text elements given the category key, in order. */
  function Selected(els: seq<Element>, predict: (real, real) -> int, clusters: Dict<string, int>, key: string): seq<string> {
    if els == [] then []
    else
      var e := els[|els| - 1];
      Selected(els[..|els| - 1], predict, clusters, key)
        + (if e.TextBox? && ClusterCategory(LineFormats(e.children), predict, clusters) == key then [BoxText(e.children)] else [])
  }

  /** Every key of the clusters names one of the lists. */
  predicate ContentKeys(clusters: Dict<string, int>) {
    forall k :: 0 <= k < |clusters| ==> IsContentKey(clusters[k].0)
  }

  /** When the clusters are present and every key names a list, nothing
      raises and each text element is appended to the list its category
      names. */
  lemma {:induction false} ClusterRunSelects(els: seq<Element>, pc: PageContent, predict: (real, real) -> int,
                                             clusters: Dict<string, int>)
    requires clusters != [] && ContentKeys(clusters)
    ensures ClusterRun(els, pc, predict, Some(clusters)).Ok?
    ensures var r := ClusterRun(els, pc, predict, Some(clusters)).value;
      && r.heading == pc.heading + Selected(els, predict, clusters, "heading")
      && r.subheading == pc.subheading + Selected(els, predict, clusters, "subheading")
      && r.content == pc.content + Selected(els, predict, clusters, "content")
      && r.images == pc.images + Selected(els, predict, clusters, "images")
      && r.tables == pc.tables + Selected(els, predict, clusters, "tables")
  {
    if els != [] {
      var p := els[..|els| - 1];
      var e := els[|els| - 1];
      ClusterRunSelects(p, pc, predict, clusters);
      var r := ClusterRun(p, pc, predict, Some(clusters)).value;
      if e.TextBox? {
        var key := ClusterCategory(LineFormats(e.children), predict, clusters);
        var t := BoxText(e.children);
        assert IsContentKey(key) by {
          var q := Query(LineFormats(e.children));
          var i := MatchIndex(clusters, predict(q.0, q.1));
          if i < |clusters| {
            assert IsContentKey(clusters[i].0);
          }
        }
        assert ClusterRun(els, pc, predict, Some(clusters)) == AppendTo(r, key, t);
        SelectedSnoc(pc.heading, els, predict, clusters, "heading");
        SelectedSnoc(pc.subheading, els, predict, clusters, "subheading");
        SelectedSnoc(pc.content, els, predict, clusters, "content");
        SelectedSnoc(pc.images, els, predict, clusters, "images");
        SelectedSnoc(pc.tables, els, predict, clusters, "tables");
      } else {
        assert ClusterRun(els, pc, predict, Some(clusters)) == Ok(r);
        SelectedSnoc(pc.heading, els, predict, clusters, "heading");
        SelectedSnoc(pc.subheading, els, predict, clusters, "subheading");
        SelectedSnoc(pc.content, els, predict, clusters, "content");
        SelectedSnoc(pc.images, els, predict, clusters, "images");
        SelectedSnoc(pc.tables, els, predict, clusters, "tables");
      }
    }
  }

  /** The last element adds its text to the list its category names. */
  lemma SelectedSnoc(before: seq<string>, els: seq<Element>, predict: (real, real) -> int,
                     clusters: Dict<string, int>, key: string)
    requires els != []
    ensures var e := els[|els| - 1];
      before + Selected(els, predict, clusters, key)
        == before + Selected(els[..|els| - 1], predict, clusters, key)
           + (if e.TextBox? && ClusterCategory(LineFormats(e.children), predict, clusters) == key then [BoxText(e.children)] else [])
  {
    var e := els[|els| - 1];
    AppendAssoc(before, Selected(els[..|els| - 1], predict, clusters, key),
      if e.TextBox? && ClusterCategory(LineFormats(e.children), predict, clusters) == key then [BoxText(e.children)] else []);
  }

  /** Without clusters, the first text element raises ValueError; a page
      without text elements passes unchanged. */
  lemma {:induction false} ClusterRunWithoutClusters(els: seq<Element>, pc: PageContent, predict: (real, real) -> int,
                                                     fontClusters: Option<Dict<string, int>>)
    requires fontClusters.None? || fontClusters.value == []
    ensures BoxTexts(els) == [] ==> ClusterRun(els, pc, predict, fontClusters) == Ok(pc)
    ensures BoxTexts(els) != [] ==> ClusterRun(els, pc, predict, fontClusters) == Err(ValueError)
  {
    if els != [] {
      var p := els[..|els| - 1];
      ClusterRunWithoutClusters(p, pc, predict, fontClusters);
      if !els[|els| - 1].TextBox? {
        assert BoxTexts(els) == BoxTexts(p) + [];
      }
    }
  }

  /** With the clusters from the initialisation, the three category lists
      together hold every text element exactly once, in page order, and the
      image and table lists gain nothing. */
  lemma {:induction false} InitializedPartition(labels: seq<int>, els: seq<Element>, predict: (real, real) -> int)
    requires InitializeFontClusters(labels).Ok?
    ensures var d := InitializeFontClusters(labels).value;
      && |Selected(els, predict, d, "heading")| + |Selected(els, predict, d, "subheading")|
         + |Selected(els, predict, d, "content")| == |BoxTexts(els)|
      && Selected(els, predict, d, "images") == [] && Selected(els, predict, d, "tables") == []
  {
    var d := InitializeFontClusters(labels).value;
    if els != [] {
      var p := els[..|els| - 1];
      var e := els[|els| - 1];
      InitializedPartition(labels, p, predict);
      if e.TextBox? {
        var key := ClusterCategory(LineFormats(e.children), predict, d);
        CategoryOfClusters(labels, LineFormats(e.children), predict);
        assert key == "heading" || key == "subheading" || key == "content";
      }
    }
  }

  // ---------------------------------------------------------------------
  // The document

  /** What one page pass gives from the page's layout and recognised
      figure texts: ClusterPass for the script. */
  type ContentPass = (PageLayout, Element -> string) -> Result<PageContent, PyException>

  /** process_page with the given predictor and clusters, as a page pass. */
  function ClusterPass(predict: (real, real) -> int, fontClusters: Option<Dict<string, int>>): ContentPass {
    (page: PageLayout, pageOcr: Element -> string) => ClusterContent(page, pageOcr, predict, fontClusters)
  }

  /** The content dictionaries of the first n pages, or the exception of the
      first page that raised. */
  function ClusterDocument(pages: seq<PageLayout>, ocr: nat -> Element -> string, pass: ContentPass, n: nat)
    : (r: Result<seq<PageContent>, PyException>)
    requires n <= |pages|
    ensures r.Ok? ==> |r.value| == n
  {
    if n == 0 then Ok([])
    else
      match ClusterDocument(pages, ocr, pass, n - 1)
      case Err(e) => Err(e)
      case Ok(cs) =>
        match pass(pages[n - 1], ocr(n - 1))
        case Err(e) => Err(e)
        case Ok(pc) => Ok(cs + [pc])
  }

  /** text_per_page after the first n pages: the content dictionaries keyed
      "Page_0", "Page_1", ... in page order, or the exception of the first
      page that raised. */
  function DocumentDict(pages: seq<PageLayout>, ocr: nat -> Element -> string, pass: ContentPass, n: nat)
    : Result<Dict<string, PageContent>, PyException>
    requires n <= |pages|
  {
    match ClusterDocument(pages, ocr, pass, n)
    case Ok(cs) => Ok(PagesDict(cs))
    case Err(e) => Err(e)
  }

  /** The page loop of main. */
  method ExtractDocument(pages: seq<PageLayout>, ocr: nat -> Element -> string, predict: (real, real) -> int,
                         fontClusters: Option<Dict<string, int>>)
    returns (r: Result<Dict<string, PageContent>, PyException>)
    ensures r == DocumentDict(pages, ocr, ClusterPass(predict, fontClusters), |pages|)
  {
    var textPerPage: Dict<string, PageContent> := [];
    var pagenum := 0;
    while pagenum < |pages|
      invariant 0 <= pagenum <= |pages|
      invariant DocumentDict(pages, ocr, ClusterPass(predict, fontClusters), pagenum) == Ok(textPerPage)
    {
      var next := ExtractPage(pages, ocr, predict, fontClusters, pagenum, textPerPage);
      if next.Err? {
        return next;
      }
      textPerPage := next.value;
      pagenum := pagenum + 1;
    }
    r := Ok(textPerPage);
  }

  /** One pass of the page loop: the page's content dictionary stored under
      its key, or the page's exception, which is then the document's. */
  method ExtractPage(pages: seq<PageLayout>, ocr: nat -> Element -> string, predict: (real, real) -> int,
                     fontClusters: Option<Dict<string, int>>, pagenum: nat, textPerPage: Dict<string, PageContent>)
    returns (r: Result<Dict<string, PageContent>, PyException>)
    requires pagenum < |pages|
    requires DocumentDict(pages, ocr, ClusterPass(predict, fontClusters), pagenum) == Ok(textPerPage)
    ensures r.Ok? ==> r == DocumentDict(pages, ocr, ClusterPass(predict, fontClusters), pagenum + 1)
    ensures r.Err? ==> r == DocumentDict(pages, ocr, ClusterPass(predict, fontClusters), |pages|)
  {
    ghost var pass := ClusterPass(predict, fontClusters);
    ghost var contents := ClusterDocument(pages, ocr, pass, pagenum).value;
    assert textPerPage == PagesDict(contents);
    var page := pages[pagenum];
    var pageContent := ProcessPage(page.elements, page.grids, ocr(pagenum), predict, fontClusters);
    assert PageLayout(page.elements, page.grids) == page;
    assert pageContent == pass(page, ocr(pagenum));
    if pageContent.Err? {
      assert ClusterDocument(pages, ocr, pass, pagenum + 1) == Err(pageContent.error);
      DocumentFailureStays(pages, ocr, pass, pagenum + 1);
      return Err(pageContent.error);
    }
    assert ClusterDocument(pages, ocr, pass, pagenum + 1) == Ok(contents + [pageContent.value]);
    PagesDictSnoc(contents, pageContent.value);
    r := Ok(Put(textPerPage, PageKey(pagenum), pageContent.value));
  }

  lemma {:induction false} DocumentFailureStays(pages: seq<PageLayout>, ocr: nat -> Element -> string,
                                                pass: ContentPass, m: nat)
    requires m <= |pages|
    requires ClusterDocument(pages, ocr, pass, m).Err?
    ensures ClusterDocument(pages, ocr, pass, |pages|) == ClusterDocument(pages, ocr, pass, m)
    decreases |pages| - m
  {
    if m < |pages| {
      DocumentFailureStays(pages, ocr, pass, m + 1);
    }
  }

  /** After a successful initialisation no page raises: the document has
      one content dictionary per page. */
  lemma {:induction false} InitializedDocument(labels: seq<int>, pages: seq<PageLayout>, ocr: nat -> Element -> string,
                                               predict: (real, real) -> int, n: nat)
    requires InitializeFontClusters(labels).Ok? && n <= |pages|
    ensures ClusterDocument(pages, ocr, ClusterPass(predict, Some(InitializeFontClusters(labels).value)), n).Ok?
    ensures |ClusterDocument(pages, ocr, ClusterPass(predict, Some(InitializeFontClusters(labels).value)), n).value| == n
  {
    if n > 0 {
      var d := InitializeFontClusters(labels).value;
      InitializedDocument(labels, pages, ocr, predict, n - 1);
      var sorted := SortByTop(pages[n - 1].elements);
      assert ContentKeys(d) by {
        assert Keys(d) == ["content", "subheading", "heading"];
        forall k | 0 <= k < |d| ensures IsContentKey(d[k].0) {
          assert d[k].0 == Keys(d)[k];
        }
      }
      ClusterRunSelects(sorted, EmptyContent().(images := FigureTexts(sorted, ocr(n - 1))), predict, d);
      assert ClusterPass(predict, Some(d))(pages[n - 1], ocr(n - 1)).Ok?;
    }
  }
}
