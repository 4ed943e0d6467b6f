/** The page loop of the table-aware extractor: one forward pass over a page's
    elements from top to bottom. Text is collected unless a table is being
    read, every figure contributes its recognised text, and a rectangle can
    start a table (its rendered text is emitted once) or, lying outside the
    table's bounds, end it. */
module TableSequencer {
  import opened Wrappers
  import opened Seqs
  import opened PyStr
  import opened PyDict
  import opened Layout
  import opened FontFeatures
  import opened TableRender
  import opened PageRecords

  /** A table found on the page by the table finder: the bottom edge of its
      bounding box (bbox[3], measured downwards from the top of the page) and
      the cell grid extracted for it. */
  datatype Table = Table(bottom: real, grid: seq<seq<Cell>>)

  /** One page: its height (page.bbox[3]), its layout elements in layout
      order, and its tables in the finder's order. */
  datatype PageInput = PageInput(height: real, elements: seq<Element>, tables: seq<Table>)

  /** lower_side and upper_side: the vertical extent of the current table. */
  datatype Bounds = Bounds(lower: real, upper: real)

  /** An entry of line_format: the formats of a text element, or the string
      placeholder "image" / "table". */
  datatype LineFormat = Formats(atoms: seq<FormatAtom>) | Placeholder(kind: string)

  /** The five lists stored for a page: page_text, line_format,
      text_from_images, text_from_tables and page_content. */
  datatype PageLists = PageLists(
    pageText: seq<string>,
    lineFormat: seq<LineFormat>,
    textFromImages: seq<string>,
    textFromTables: seq<string>,
    pageContent: seq<string>)

  /** The loop's variables. The bounds are module-level variables of the
      script: they are unset (None) until the first table is entered and keep
      their value from one page to the next. */
  datatype State = State(
    tableNum: nat,
    firstElement: bool,
    tableExtractionFlag: bool,
    bounds: Option<Bounds>,
    lists: PageLists)

  function Initial(bounds: Option<Bounds>): State {
    State(0, true, false, bounds, PageLists([], [], [], [], []))
  }

  function AddText(l: PageLists, text: string, formats: seq<FormatAtom>): PageLists {
    l.(pageText := l.pageText + [text],
       lineFormat := l.lineFormat + [Formats(formats)],
       pageContent := l.pageContent + [text])
  }

  function AddImage(l: PageLists, text: string): PageLists {
    l.(textFromImages := l.textFromImages + [text],
       pageContent := l.pageContent + [text],
       pageText := l.pageText + ["image"],
       lineFormat := l.lineFormat + [Placeholder("image")])
  }

  function AddTable(l: PageLists, text: string): PageLists {
    l.(textFromTables := l.textFromTables + [text],
       pageContent := l.pageContent + [text],
       pageText := l.pageText + ["table"],
       lineFormat := l.lineFormat + [Placeholder("table")])
  }

  /** A rectangle met while looking for a table, with a table left to read,
      starts that table. */
  function EnterTable(page: PageInput, e: Element, st: State): State
    requires e.Rect?
  {
    if st.firstElement && st.tableNum + 1 <= |page.tables| then
      var t := page.tables[st.tableNum];
      st.(bounds := Some(Bounds(page.height - t.bottom, e.y1)),
          lists := AddTable(st.lists, TableString(t.grid)),
          tableExtractionFlag := true,
          firstElement := false)
    else st
  }

  /** Every rectangle is then compared with the bounds: inside them nothing
      happens; outside them, if the next element is not a rectangle, the
      table is over and the next one is looked for. */
  function LeaveTable(els: seq<Element>, i: nat, st: State): Result<State, PyException>
    requires i < |els| && els[i].Rect?
  {
    match st.bounds
    case None => Err(NameError)
    case Some(b) =>
      if els[i].y0 >= b.lower && els[i].y1 <= b.upper then Ok(st)
      else if i + 1 >= |els| then Err(IndexError)
      else if !els[i + 1].Rect? then
        Ok(st.(tableExtractionFlag := false, firstElement := true, tableNum := st.tableNum + 1))
      else Ok(st)
  }

  /** The effect of the i-th element of the sorted page. */
  function Step(page: PageInput, els: seq<Element>, i: nat, st: State, ocr: Element -> string)
    : Result<State, PyException>
    requires i < |els|
  {
    var e := els[i];
    match e
    case TextBox(_, _, children) =>
      if !st.tableExtractionFlag then
        Ok(st.(lists := AddText(st.lists, BoxText(children), TextFormats(children))))
      else Ok(st)
    case Figure(_, _, _, _) => Ok(st.(lists := AddImage(st.lists, ocr(e))))
    case Rect(_, _) => LeaveTable(els, i, EnterTable(page, e, st))
    case Other(_, _) => Ok(st)
  }

  function Sorted(page: PageInput): seq<Element> {
    SortByTop(page.elements)
  }

  /** The state after the first n elements of the sorted page, or the
      exception that ended the pass. */
  function Run(page: PageInput, ocr: Element -> string, bounds: Option<Bounds>, n: nat)
    : Result<State, PyException>
    requires n <= |Sorted(page)|
  {
    if n == 0 then Ok(Initial(bounds))
    else
      match Run(page, ocr, bounds, n - 1)
      case Err(e) => Err(e)
      case Ok(st) => Step(page, Sorted(page), n - 1, st, ocr)
  }

  function RunPage(page: PageInput, ocr: Element -> string, bounds: Option<Bounds>)
    : Result<State, PyException>
  {
    Run(page, ocr, bounds, |Sorted(page)|)
  }

  /** An exception ends the pass: later elements change nothing. */
  lemma {:induction false} FailureStays(page: PageInput, ocr: Element -> string, bounds: Option<Bounds>, m: nat, n: nat)
    requires m <= n <= |Sorted(page)|
    requires Run(page, ocr, bounds, m).Err?
    ensures Run(page, ocr, bounds, n) == Run(page, ocr, bounds, m)
    decreases n
  {
    if n > m {
      FailureStays(page, ocr, bounds, m, n - 1);
    }
  }

  /** The page loop, with the text extractor, the table renderer and the
      recogniser of figure text as its helpers. */
  method SequencePage(page: PageInput, ocr: Element -> string, bounds: Option<Bounds>)
    returns (r: Result<State, PyException>)
    ensures r == RunPage(page, ocr, bounds)
  {
    var st := Initial(bounds);
    var pageElements := SortByTop(page.elements);
    var i := 0;
    while i < |pageElements|
      invariant 0 <= i <= |pageElements|
      invariant Run(page, ocr, bounds, i) == Ok(st)
    {
      var next := ProcessElement(page, pageElements, i, st, ocr);
      assert Run(page, ocr, bounds, i + 1) == next;
      if next.Err? {
        FailureStays(page, ocr, bounds, i + 1, |pageElements|);
        return next;
      }
      st := next.value;
      i := i + 1;
    }
    r := Ok(st);
  }

  /** The body of the page loop for element i, on the loop's variables. */
  method ProcessElement(page: PageInput, pageElements: seq<Element>, i: nat, st: State, ocr: Element -> string)
    returns (r: Result<State, PyException>)
    requires i < |pageElements|
    ensures r == Step(page, pageElements, i, st, ocr)
  {
    var tableNum, firstElement, tableExtractionFlag, sides := st.tableNum, st.firstElement, st.tableExtractionFlag, st.bounds;
    var pageText, lineFormat, pageContent := st.lists.pageText, st.lists.lineFormat, st.lists.pageContent;
    var textFromImages, textFromTables := st.lists.textFromImages, st.lists.textFromTables;
    var element := pageElements[i];
    // The script tests the three element kinds with separate `if`s; the
    // kinds exclude each other, so at most one of them applies.
    if element.TextBox? {
      if tableExtractionFlag == false {
        var lineText, formatPerLine := TextExtraction(element.children);
        pageText := pageText + [lineText];
        lineFormat := lineFormat + [Formats(formatPerLine)];
        pageContent := pageContent + [lineText];
      }
    } else if element.Figure? {
      var imageText := ocr(element);
      textFromImages := textFromImages + [imageText];
      pageContent := pageContent + [imageText];
      pageText := pageText + ["image"];
      lineFormat := lineFormat + [Placeholder("image")];
    } else if element.Rect? {
      if firstElement && tableNum + 1 <= |page.tables| {
        sides := Some(Bounds(page.height - page.tables[tableNum].bottom, element.y1));
        var tableString := TableConverter(page.tables[tableNum].grid);
        textFromTables := textFromTables + [tableString];
        pageContent := pageContent + [tableString];
        tableExtractionFlag := true;
        firstElement := false;
        pageText := pageText + ["table"];
        lineFormat := lineFormat + [Placeholder("table")];
      }
      if sides.None? {
        return Err(NameError);
      }
      if element.y0 >= sides.value.lower && element.y1 <= sides.value.upper {
      } else if i + 1 >= |pageElements| {
        return Err(IndexError);
      } else if !pageElements[i + 1].Rect? {
        tableExtractionFlag := false;
        firstElement := true;
        tableNum := tableNum + 1;
      }
    }
    r := Ok(State(tableNum, firstElement, tableExtractionFlag, sides,
                  PageLists(pageText, lineFormat, textFromImages, textFromTables, pageContent)));
  }

  // ---------------------------------------------------------------------
  // What every state reached on a page satisfies

  /** page_text, line_format and page_content grow together, and a
      placeholder in line_format sits beside the same word in page_text. */
  predicate Lockstep(l: PageLists) {
    && |l.pageText| == |l.lineFormat|
    && |l.pageContent| == |l.lineFormat|
    && forall k :: 0 <= k < |l.lineFormat| && l.lineFormat[k].Placeholder? ==>
         l.pageText[k] == l.lineFormat[k].kind && (l.pageText[k] == "image" || l.pageText[k] == "table")
  }

  /** The rendered tables of a page, in the finder's order. */
  function Rendered(tables: seq<Table>): seq<string> {
    seq(|tables|, k requires 0 <= k < |tables| => TableString(tables[k].grid))
  }

  function Min(a: nat, b: nat): nat {
    if a <= b then a else b
  }

  /** text_from_tables holds rendered tables in table order, each at most
      once, none beyond table_num; while a table is read its rendering is the
      last entry. */
  predicate TablesTaken(tables: seq<Table>, st: State) {
    var r := Rendered(tables);
    var f := st.lists.textFromTables;
    if st.tableExtractionFlag then
      && st.tableNum < |tables|
      && f != []
      && f[|f| - 1] == r[st.tableNum]
      && Embeds(f[..|f| - 1], r[..st.tableNum])
    else Embeds(f, r[..Min(st.tableNum, |tables|)])
  }

  predicate Inv(page: PageInput, st: State) {
    && st.tableExtractionFlag == !st.firstElement
    && Lockstep(st.lists)
    && TablesTaken(page.tables, st)
  }

  lemma AddTableLockstep(l: PageLists, text: string)
    requires Lockstep(l)
    ensures Lockstep(AddTable(l, text))
  {
    var l' := AddTable(l, text);
    assert forall k :: 0 <= k < |l.lineFormat| ==> l'.lineFormat[k] == l.lineFormat[k] && l'.pageText[k] == l.pageText[k];
  }

  lemma AddImageLockstep(l: PageLists, text: string)
    requires Lockstep(l)
    ensures Lockstep(AddImage(l, text))
  {
    var l' := AddImage(l, text);
    assert forall k :: 0 <= k < |l.lineFormat| ==> l'.lineFormat[k] == l.lineFormat[k] && l'.pageText[k] == l.pageText[k];
  }

  lemma AddTextLockstep(l: PageLists, text: string, formats: seq<FormatAtom>)
    requires Lockstep(l)
    ensures Lockstep(AddText(l, text, formats))
  {
    var l' := AddText(l, text, formats);
    assert forall k :: 0 <= k < |l.lineFormat| ==> l'.lineFormat[k] == l.lineFormat[k] && l'.pageText[k] == l.pageText[k];
  }

  lemma EnterInv(page: PageInput, e: Element, st: State)
    requires e.Rect? && Inv(page, st)
    ensures Inv(page, EnterTable(page, e, st))
  {
    if st.firstElement && st.tableNum + 1 <= |page.tables| {
      var st' := EnterTable(page, e, st);
      var f := st.lists.textFromTables;
      var r := Rendered(page.tables);
      AddTableLockstep(st.lists, TableString(page.tables[st.tableNum].grid));
      assert st'.lists.textFromTables == f + [r[st.tableNum]];
      assert (f + [r[st.tableNum]])[..|f|] == f;
    }
  }

  lemma LeaveInv(page: PageInput, els: seq<Element>, i: nat, st: State)
    requires i < |els| && els[i].Rect? && Inv(page, st)
    requires LeaveTable(els, i, st).Ok?
    ensures Inv(page, LeaveTable(els, i, st).value)
  {
    var st' := LeaveTable(els, i, st).value;
    if st'.tableNum == st.tableNum + 1 {
      var r := Rendered(page.tables);
      var f := st.lists.textFromTables;
      var t := st.tableNum;
      if st.tableExtractionFlag {
        var x := f[..|f| - 1];
        EmbedsSnoc(x, r[..t], r[t]);
        SplitLast(f);
        TakeSnoc(r, t);
      } else if t < |page.tables| {
        EmbedsGrow(f, r[..t], r[t]);
        TakeSnoc(r, t);
      }
    }
  }

  lemma StepInv(page: PageInput, i: nat, st: State, ocr: Element -> string)
    requires i < |Sorted(page)| && Inv(page, st)
    requires Step(page, Sorted(page), i, st, ocr).Ok?
    ensures Inv(page, Step(page, Sorted(page), i, st, ocr).value)
  {
    var e := Sorted(page)[i];
    match e
    case TextBox(_, _, children) =>
      if !st.tableExtractionFlag {
        AddTextLockstep(st.lists, BoxText(children), TextFormats(children));
      }
    case Figure(_, _, _, _) =>
      AddImageLockstep(st.lists, ocr(e));
    case Rect(_, _) =>
      EnterInv(page, e, st);
      LeaveInv(page, Sorted(page), i, EnterTable(page, e, st));
    case Other(_, _) =>
  }

  lemma {:induction false} RunInv(page: PageInput, ocr: Element -> string, bounds: Option<Bounds>, n: nat)
    requires n <= |Sorted(page)|
    requires Run(page, ocr, bounds, n).Ok?
    ensures Inv(page, Run(page, ocr, bounds, n).value)
  {
    if n > 0 {
      RunInv(page, ocr, bounds, n - 1);
      StepInv(page, n - 1, Run(page, ocr, bounds, n - 1).value, ocr);
    }
  }

  /** After a page: page_text, line_format and page_content have equal length
      with the placeholders aligned, and table_extraction_flag is always the
      negation of first_element. */
  lemma PageLockstep(page: PageInput, ocr: Element -> string, bounds: Option<Bounds>)
    requires RunPage(page, ocr, bounds).Ok?
    ensures Lockstep(RunPage(page, ocr, bounds).value.lists)
    ensures RunPage(page, ocr, bounds).value.tableExtractionFlag == !RunPage(page, ocr, bounds).value.firstElement
  {
    RunInv(page, ocr, bounds, |Sorted(page)|);
  }

  /** After a page: text_from_tables is the rendering of some of the page's
      tables, in their order, each at most once; so there are never more
      table texts than tables. */
  lemma TablesTakenEmbeds(tables: seq<Table>, st: State)
    requires TablesTaken(tables, st)
    ensures Embeds(st.lists.textFromTables, Rendered(tables))
  {
    var r := Rendered(tables);
    var f := st.lists.textFromTables;
    var t := st.tableNum;
    if st.tableExtractionFlag {
      var x := f[..|f| - 1];
      EmbedsSnoc(x, r[..t], r[t]);
      SplitLast(f);
      TakeSnoc(r, t);
      EmbedsExtend(f, r[..t + 1], r[t + 1..]);
      TakeDrop(r, t + 1);
    } else {
      var m := Min(t, |tables|);
      EmbedsExtend(f, r[..m], r[m..]);
      TakeDrop(r, m);
    }
  }

  /** After a page: text_from_tables is the rendering of some of the page's
      tables, in their order, each at most once; so there are never more
      table texts than tables. */
  lemma TablesAtMostOnce(page: PageInput, ocr: Element -> string, bounds: Option<Bounds>)
    requires RunPage(page, ocr, bounds).Ok?
    ensures Embeds(RunPage(page, ocr, bounds).value.lists.textFromTables, Rendered(page.tables))
    ensures |RunPage(page, ocr, bounds).value.lists.textFromTables| <= |page.tables|
  {
    var st := RunPage(page, ocr, bounds).value;
    RunInv(page, ocr, bounds, |Sorted(page)|);
    TablesTakenEmbeds(page.tables, st);
    EmbedsLength(st.lists.textFromTables, Rendered(page.tables));
  }

  // ---------------------------------------------------------------------
  // Figures

  lemma StepImages(page: PageInput, i: nat, st: State, ocr: Element -> string)
    requires i < |Sorted(page)|
    requires Step(page, Sorted(page), i, st, ocr).Ok?
    ensures Step(page, Sorted(page), i, st, ocr).value.lists.textFromImages
         == st.lists.textFromImages + (if Sorted(page)[i].Figure? then [ocr(Sorted(page)[i])] else [])
  {
  }

  /** text_from_images has one entry per figure, in top-to-bottom order,
      whether or not a table is being read. */
  lemma {:induction false} RunImages(page: PageInput, ocr: Element -> string, bounds: Option<Bounds>, n: nat)
    requires n <= |Sorted(page)|
    requires Run(page, ocr, bounds, n).Ok?
    ensures Run(page, ocr, bounds, n).value.lists.textFromImages == FigureTexts(Sorted(page)[..n], ocr)
  {
    if n > 0 {
      RunImages(page, ocr, bounds, n - 1);
      StepImages(page, n - 1, Run(page, ocr, bounds, n - 1).value, ocr);
      assert Sorted(page)[..n][..n - 1] == Sorted(page)[..n - 1];
    }
  }

  // ---------------------------------------------------------------------
  // Single steps

  /** A text element is recorded only outside a table, as its text and its
      formats; inside a table it changes nothing. */
  lemma StepText(page: PageInput, els: seq<Element>, i: nat, st: State, ocr: Element -> string)
    requires i < |els| && els[i].TextBox?
    ensures Step(page, els, i, st, ocr).Ok?
    ensures st.tableExtractionFlag ==> Step(page, els, i, st, ocr).value == st
    ensures !st.tableExtractionFlag ==>
      var l := Step(page, els, i, st, ocr).value.lists;
      && l.pageText == st.lists.pageText + [BoxText(els[i].children)]
      && l.pageContent == st.lists.pageContent + [BoxText(els[i].children)]
      && l.lineFormat == st.lists.lineFormat + [Formats(TextFormats(els[i].children))]
      && l.textFromImages == st.lists.textFromImages
      && l.textFromTables == st.lists.textFromTables
  {
  }

  /** A rectangle enters a table exactly when the first element of a table is
      awaited and a table is left; it then emits that table's rendering once,
      with a "table" placeholder. It leaves the table exactly when it lies
      outside the bounds and the next element is not a rectangle. */
  lemma StepRect(page: PageInput, els: seq<Element>, i: nat, st: State, ocr: Element -> string)
    requires i < |els| && els[i].Rect?
    requires Step(page, els, i, st, ocr).Ok?
    ensures
      var st' := Step(page, els, i, st, ocr).value;
      var entering := st.firstElement && st.tableNum + 1 <= |page.tables|;
      && (entering ==> st'.lists == AddTable(st.lists, TableString(page.tables[st.tableNum].grid)))
      && (entering ==> st'.bounds == Some(Bounds(page.height - page.tables[st.tableNum].bottom, els[i].y1)))
      && (!entering ==> st'.lists == st.lists && st'.bounds == st.bounds)
  {
  }

  lemma StepRectLeaves(page: PageInput, els: seq<Element>, i: nat, st: State, ocr: Element -> string)
    requires i < |els| && els[i].Rect?
    requires Step(page, els, i, st, ocr).Ok?
    ensures
      var st' := Step(page, els, i, st, ocr).value;
      var b := st'.bounds.value;
      var outside := !(els[i].y0 >= b.lower && els[i].y1 <= b.upper);
      && st'.bounds.Some?
      && (st'.tableNum == st.tableNum + 1 <==> outside && !els[i + 1].Rect?)
      && (st'.tableNum == st.tableNum + 1 ==> st'.firstElement && !st'.tableExtractionFlag)
      && (st'.tableNum != st.tableNum + 1 ==> st'.tableNum == st.tableNum)
  {
  }

  // ---------------------------------------------------------------------
  // Errors

  /** The bounds, once set, stay set. */
  lemma {:induction false} BoundsStay(page: PageInput, ocr: Element -> string, bounds: Option<Bounds>, n: nat)
    requires n <= |Sorted(page)|
    requires bounds.Some? && Run(page, ocr, bounds, n).Ok?
    ensures Run(page, ocr, bounds, n).value.bounds.Some?
  {
    if n > 0 {
      BoundsStay(page, ocr, bounds, n - 1);
    }
  }

  /** The pass fails in two ways only: with NameError at a rectangle met before
      any table has set the bounds (on this page or an earlier one), or with
      IndexError at a rectangle outside the bounds that is the page's last
      element, whose look-ahead runs off the end. */
  lemma {:induction false} RunErrors(page: PageInput, ocr: Element -> string, bounds: Option<Bounds>, n: nat)
    requires n <= |Sorted(page)|
    requires Run(page, ocr, bounds, n).Err?
    ensures Run(page, ocr, bounds, n).error == NameError ==> bounds.None?
    ensures Run(page, ocr, bounds, n).error == IndexError ==> n == |Sorted(page)| && Sorted(page)[n - 1].Rect?
    ensures Run(page, ocr, bounds, n).error == NameError || Run(page, ocr, bounds, n).error == IndexError
  {
    var els := Sorted(page);
    if Run(page, ocr, bounds, n - 1).Err? {
      RunErrors(page, ocr, bounds, n - 1);
    } else {
      var st := Run(page, ocr, bounds, n - 1).value;
      if bounds.Some? {
        BoundsStay(page, ocr, bounds, n - 1);
      }
      assert els[n - 1].Rect?;
    }
  }

  /** Conversely, for every page and every rectangle reached without an
      exception: once the entry test has run, unset bounds raise NameError,
      and a rectangle outside the bounds that is the page's last element
      raises IndexError; either exception is then the page's result. In
      every other case the rectangle raises nothing. */
  lemma RectRaises(page: PageInput, ocr: Element -> string, bounds: Option<Bounds>, n: nat)
    requires n < |Sorted(page)| && Sorted(page)[n].Rect?
    requires Run(page, ocr, bounds, n).Ok?
    ensures
      var st := Run(page, ocr, bounds, n).value;
      var e := Sorted(page)[n];
      var entered := EnterTable(page, e, st);
      var b := entered.bounds;
      var outside := b.Some? && !(e.y0 >= b.value.lower && e.y1 <= b.value.upper);
      && (b.None? <==> st.bounds.None? && !(st.firstElement && st.tableNum + 1 <= |page.tables|))
      && (b.None? ==> RunPage(page, ocr, bounds) == Err(NameError))
      && (outside && n + 1 == |Sorted(page)| ==> RunPage(page, ocr, bounds) == Err(IndexError))
      && (Run(page, ocr, bounds, n + 1).Err? <==> b.None? || (outside && n + 1 == |Sorted(page)|))
  {
    var els := Sorted(page);
    var st := Run(page, ocr, bounds, n).value;
    assert Run(page, ocr, bounds, n + 1) == LeaveTable(els, n, EnterTable(page, els[n], st));
    if Run(page, ocr, bounds, n + 1).Err? {
      FailureStays(page, ocr, bounds, n + 1, |els|);
    }
  }

  /** A page whose only element is a rectangle, in a document where no table
      has been entered yet and with no table on this page, ends the script
      with NameError. */
  lemma NameErrorExample(ocr: Element -> string)
    ensures RunPage(PageInput(100.0, [Rect(0.0, 10.0)], []), ocr, None) == Err(NameError)
  {
    var page := PageInput(100.0, [Rect(0.0, 10.0)], []);
    assert Sorted(page) == [Rect(0.0, 10.0)];
  }

  /** A table is entered at the page's last element, a rectangle that lies
      below the table's lower side: the look-ahead raises IndexError. */
  lemma IndexErrorExample(ocr: Element -> string)
    ensures RunPage(PageInput(100.0, [Rect(0.0, 10.0)], [Table(50.0, [])]), ocr, None) == Err(IndexError)
  {
    var page := PageInput(100.0, [Rect(0.0, 10.0)], [Table(50.0, [])]);
    assert Sorted(page) == [Rect(0.0, 10.0)];
  }
  /** A table read from top to bottom: its first rectangle emits the table,
      a text box inside it is left out, a rectangle below it followed by text
      ends it, and the text after it is kept. */
  lemma TableExample(ocr: Element -> string)
    ensures RunPage(ExamplePage(), ocr, None).Ok?
    ensures RunPage(ExamplePage(), ocr, None).value.lists.pageText == ["table", "after"]
    ensures RunPage(ExamplePage(), ocr, None).value.lists.textFromTables == ["|a|"]
    ensures RunPage(ExamplePage(), ocr, None).value.tableNum == 1
    ensures RunPage(ExamplePage(), ocr, None).value.bounds == Some(Bounds(40.0, 60.0))
  {
    ExampleRun(ocr);
  }

  /** The state after the rectangle below the table. */
  function ExampleLeft(): State {
    ExampleEntered().(tableExtractionFlag := false, firstElement := true, tableNum := 1)
  }

  /** The state after the whole example page. */
  function ExampleFinal(): State {
    ExampleLeft().(lists := AddText(ExampleLeft().lists, "after", []))
  }

  lemma ExampleRun(ocr: Element -> string)
    ensures RunPage(ExamplePage(), ocr, None) == Ok(ExampleFinal())
  {
    var page := ExamplePage();
    ExampleTableRead(ocr);
    ExampleLeave(ocr);
    ExampleAfter(ocr);
    RunNext(page, ocr, None, 2, ExampleEntered());
    RunNext(page, ocr, None, 3, ExampleLeft());
  }

  /** The table's first rectangle and the text box inside the table. */
  lemma ExampleTableRead(ocr: Element -> string)
    ensures Sorted(ExamplePage()) == ExamplePage().elements
    ensures Run(ExamplePage(), ocr, None, 2) == Ok(ExampleEntered())
  {
    var page := ExamplePage();
    SortedExample(page.elements);
    ExampleEnter(ocr);
    StepText(page, page.elements, 1, ExampleEntered(), ocr);
    RunNext(page, ocr, None, 0, Initial(None));
    RunNext(page, ocr, None, 1, ExampleEntered());
  }

  /** One more element of the sorted page is one more step. */
  lemma RunNext(page: PageInput, ocr: Element -> string, bounds: Option<Bounds>, n: nat, st: State)
    requires n < |Sorted(page)| && Run(page, ocr, bounds, n) == Ok(st)
    ensures Run(page, ocr, bounds, n + 1) == Step(page, Sorted(page), n, st, ocr)
  {
  }

  /** The page of TableExample. */
  function ExamplePage(): PageInput {
    PageInput(100.0, [Rect(40.0, 60.0), TextBox(45.0, 55.0, [TextLine([Anno("cell")])]),
                      Rect(10.0, 20.0), TextBox(0.0, 5.0, [TextLine([Anno("after")])])],
              [Table(60.0, [[Str("a")]])])
  }

  /** The state after the table's first rectangle. */
  function ExampleEntered(): State {
    State(0, false, true, Some(Bounds(40.0, 60.0)),
          PageLists(["table"], [Placeholder("table")], [], ["|a|"], ["|a|"]))
  }

  lemma ExampleEnter(ocr: Element -> string)
    ensures Step(ExamplePage(), ExamplePage().elements, 0, Initial(None), ocr) == Ok(ExampleEntered())
  {
    var page := ExamplePage();
    OneCellTable();
    var e0 := EnterTable(page, page.elements[0], Initial(None));
    assert e0.lists == AddTable(Initial(None).lists, "|a|");
    assert e0 == ExampleEntered();
    assert LeaveTable(page.elements, 0, e0) == Ok(e0);
  }

  lemma ExampleLeave(ocr: Element -> string)
    ensures Step(ExamplePage(), ExamplePage().elements, 2, ExampleEntered(), ocr) == Ok(ExampleLeft())
  {
    var page := ExamplePage();
    assert page.elements[2] == Rect(10.0, 20.0);
    assert page.elements[3].TextBox?;
  }

  lemma ExampleAfter(ocr: Element -> string)
    ensures Step(ExamplePage(), ExamplePage().elements, 3, ExampleLeft(), ocr) == Ok(ExampleFinal())
  {
    var children := [TextLine([Anno("after")])];
    assert ExamplePage().elements[3].children == children;
    assert BoxText(children) == "after";
    assert TextFormats(children) == [] by {
      assert [Anno("after")][..0] == [];
      assert LineAtoms([Anno("after")]) == [];
      assert children[..0] == [];
      assert BoxAtoms(children) == [];
    }
  }

  lemma OneCellTable()
    ensures TableString([[Str("a")]]) == "|a|"
  {
    assert CleanCell(Str("a")) == "a";
    assert CleanRow([Str("a")]) == ["a"];
    assert RenderRow([Str("a")]) == "|a|";
    assert RenderRows([[Str("a")]]) == ["|a|"];
  }

  lemma SortedExample(els: seq<Element>)
    requires |els| == 4
    requires els[0].y1 > els[1].y1 > els[2].y1 > els[3].y1
    ensures SortByTop(els) == els
  {
    var s3 := els[3..];
    assert SortBy(els[3..], NegTop) == [els[3]];
    assert els[2..] == [els[2]] + els[3..];
    assert SortBy(els[2..], NegTop) == els[2..];
    assert els[1..] == [els[1]] + els[2..];
    assert SortBy(els[1..], NegTop) == els[1..];
  }

  // ---------------------------------------------------------------------
  // The document: one entry per page, the bounds carried across pages

  /** A pass over one page from the bounds it starts with: RunPage for the
      script. */
  type PagePass = (PageInput, Element -> string, Option<Bounds>) -> Result<State, PyException>

  /** The dictionary text_per_page after the first n pages, each run through
      the given page pass, with the bounds left by them, or the exception
      that ended the script. The recogniser is given per page, since it
      reads the page's image. */
  function Document(pages: seq<PageInput>, ocr: nat -> Element -> string, pass: PagePass, n: nat)
    : Result<(Dict<string, PageLists>, Option<Bounds>), PyException>
    requires n <= |pages|
  {
    if n == 0 then Ok(([], None))
    else
      match Document(pages, ocr, pass, n - 1)
      case Err(e) => Err(e)
      case Ok(sofar) =>
        match pass(pages[n - 1], ocr(n - 1), sofar.1)
        case Err(e) => Err(e)
        case Ok(st) => Ok((Put(sofar.0, PageKey(n - 1), st.lists), st.bounds))
  }

  /** text_per_page at the end of the script's page loop. */
  function DocumentText(pages: seq<PageInput>, ocr: nat -> Element -> string)
    : Result<Dict<string, PageLists>, PyException>
  {
    match Document(pages, ocr, RunPage, |pages|)
    case Err(e) => Err(e)
    case Ok(r) => Ok(r.0)
  }

  lemma {:induction false} DocumentFailureStays(pages: seq<PageInput>, ocr: nat -> Element -> string, pass: PagePass, m: nat, n: nat)
    requires m <= n <= |pages|
    requires Document(pages, ocr, pass, m).Err?
    ensures Document(pages, ocr, pass, n) == Document(pages, ocr, pass, m)
    decreases n
  {
    if n > m {
      DocumentFailureStays(pages, ocr, pass, m, n - 1);
    }
  }

  /** The script's loop over the pages. */
  method ExtractPages(pages: seq<PageInput>, ocr: nat -> Element -> string)
    returns (r: Result<Dict<string, PageLists>, PyException>)
    ensures r == DocumentText(pages, ocr)
  {
    var textPerPage: Dict<string, PageLists> := [];
    var sides: Option<Bounds> := None;
    ghost var sofar := Document(pages, ocr, RunPage, 0);
    var pagenum := 0;
    while pagenum < |pages|
      invariant 0 <= pagenum <= |pages|
      invariant sofar == Document(pages, ocr, RunPage, pagenum)
      invariant sofar == Ok((textPerPage, sides))
    {
      var next := ExtractPage(pages, ocr, pagenum, textPerPage, sides);
      if next.Err? {
        return Err(next.error);
      }
      textPerPage, sides := next.value.0, next.value.1;
      sofar := next;
      pagenum := pagenum + 1;
    }
    r := Ok(textPerPage);
  }

  /** The body of the page loop: the page's pass, started from the bounds
      the earlier pages left, is stored under the page's key. */
  method ExtractPage(pages: seq<PageInput>, ocr: nat -> Element -> string, pagenum: nat,
                     textPerPage: Dict<string, PageLists>, sides: Option<Bounds>)
    returns (r: Result<(Dict<string, PageLists>, Option<Bounds>), PyException>)
    requires pagenum < |pages|
    requires Document(pages, ocr, RunPage, pagenum) == Ok((textPerPage, sides))
    ensures r == Document(pages, ocr, RunPage, pagenum + 1)
    ensures r.Err? ==> Document(pages, ocr, RunPage, |pages|) == r
  {
    var page := SequencePage(pages[pagenum], ocr(pagenum), sides);
    if page.Err? {
      DocumentFailureStays(pages, ocr, RunPage, pagenum + 1, |pages|);
      return Err(page.error);
    }
    var dctkey := "Page_" + NatToString(pagenum);
    r := Ok((Put(textPerPage, dctkey, page.value.lists), page.value.bounds));
  }

  /** Entry k of d is page k's key with the lists of the pass over page k,
      started from the bounds the pages before it left. */
  predicate PageEntry(pages: seq<PageInput>, ocr: nat -> Element -> string, pass: PagePass, d: Dict<string, PageLists>, k: nat)
    requires k < |pages| && k < |d|
  {
    && Document(pages, ocr, pass, k).Ok?
    && pass(pages[k], ocr(k), Document(pages, ocr, pass, k).value.1).Ok?
    && d[k] == (PageKey(k), pass(pages[k], ocr(k), Document(pages, ocr, pass, k).value.1).value.lists)
  }

  /** After n pages the dictionary has one entry per page, in page order,
      keyed "Page_0", "Page_1", ..., each holding the lists of a pass over
      that page that starts from the bounds the earlier pages left. */
  lemma {:induction false} DocumentEntries(pages: seq<PageInput>, ocr: nat -> Element -> string, pass: PagePass, n: nat)
    requires n <= |pages|
    requires Document(pages, ocr, pass, n).Ok?
    ensures |Document(pages, ocr, pass, n).value.0| == n
    ensures forall k :: 0 <= k < n ==> PageEntry(pages, ocr, pass, Document(pages, ocr, pass, n).value.0, k)
  {
    if n > 0 {
      DocumentStep(pages, ocr, pass, n);
      DocumentEntries(pages, ocr, pass, n - 1);
      var d := Document(pages, ocr, pass, n - 1).value.0;
      var v := pass(pages[n - 1], ocr(n - 1), Document(pages, ocr, pass, n - 1).value.1).value.lists;
      forall k | 0 <= k < n - 1 ensures d[k].0 == PageKey(k) {
        assert PageEntry(pages, ocr, pass, d, k);
      }
      FreshPageKey(d, n - 1);
      PutNew(d, PageKey(n - 1), v);
      var d' := d + [(PageKey(n - 1), v)];
      forall k | 0 <= k < n - 1 ensures PageEntry(pages, ocr, pass, d', k) {
        PageEntryKept(pages, ocr, pass, d, (PageKey(n - 1), v), k);
      }
    }
  }

  /** One more page: the pages before it succeeded, its own pass succeeded,
      and its lists were stored under its key. */
  lemma DocumentStep(pages: seq<PageInput>, ocr: nat -> Element -> string, pass: PagePass, n: nat)
    requires 0 < n <= |pages|
    requires Document(pages, ocr, pass, n).Ok?
    ensures Document(pages, ocr, pass, n - 1).Ok?
    ensures pass(pages[n - 1], ocr(n - 1), Document(pages, ocr, pass, n - 1).value.1).Ok?
    ensures Document(pages, ocr, pass, n).value.0
         == Put(Document(pages, ocr, pass, n - 1).value.0, PageKey(n - 1),
                pass(pages[n - 1], ocr(n - 1), Document(pages, ocr, pass, n - 1).value.1).value.lists)
  {
  }

  lemma PageEntryKept(pages: seq<PageInput>, ocr: nat -> Element -> string, pass: PagePass, d: Dict<string, PageLists>,
                      x: (string, PageLists), k: nat)
    requires k < |pages| && k < |d|
    requires PageEntry(pages, ocr, pass, d, k)
    ensures PageEntry(pages, ocr, pass, d + [x], k)
  {
    assert (d + [x])[k] == d[k];
  }

  // ---------------------------------------------------------------------
  // The output records

  /** The record stored for a page: its key, placeholder header, subheader,
      url and vector, and the page content concatenated. */
  datatype PdfRecord = PdfRecord(
    pageNumber: string,
    header: string,
    subheader: string,
    content: string,
    url: string,
    vector: string)

  /** process_pdf_data: appends one record per page, in dictionary order, to
      the records collected so far. */
  method ProcessPdfData(data: seq<PdfRecord>, textPerPage: Dict<string, PageLists>)
    returns (data': seq<PdfRecord>)
    ensures |data'| == |data| + |textPerPage|
    ensures data'[..|data|] == data
    ensures forall k :: 0 <= k < |textPerPage| ==>
      data'[|data| + k] == PdfRecord(textPerPage[k].0, "", "", Concat(textPerPage[k].1.pageContent), "", "<>")
  {
    data' := data;
    var i := 0;
    while i < |textPerPage|
      invariant 0 <= i <= |textPerPage|
      invariant |data'| == |data| + i
      invariant data'[..|data|] == data
      invariant forall k :: 0 <= k < i ==>
        data'[|data| + k] == PdfRecord(textPerPage[k].0, "", "", Concat(textPerPage[k].1.pageContent), "", "<>")
    {
      var (pageNum, content) := textPerPage[i];
      var pageData := PdfRecord(pageNum, "", "", Concat(content.pageContent), "", "<>");
      data' := data' + [pageData];
      i := i + 1;
    }
  }
}
