/** The positioned layout elements a page is made of, as the PDF layout
    analyser delivers them, and the top-to-bottom reading order. */
module Layout {
  import opened Seqs
  import opened PyStr

  /** A character of a text line: a glyph with a font (LTChar), or a
      layout-inserted character such as a space or newline without one (LTAnno). */
  datatype Glyph =
    | Char(fontname: string, size: real, text: string)
    | Anno(text: string)

  /** A child of a text box: a text line of glyphs (an LTTextContainer), or some
      other object. */
  datatype Child = TextLine(glyphs: seq<Glyph>) | NonText

  /** A page element. y0 is its bottom edge and y1 its top edge, measured
      upwards from the bottom of the page. */
  datatype Element =
    | TextBox(y0: real, y1: real, children: seq<Child>)   // LTTextContainer
    | Rect(y0: real, y1: real)                            // LTRect
    | Figure(x0: real, y0: real, x1: real, y1: real)      // LTFigure
    | Other(y0: real, y1: real)                           // lines, curves, images ...

  /** A (font name, size) pair; sizes are taken as already rounded. */
  datatype FontDetail = FontDetail(fontname: string, size: real)

  /** get_text() of a text line: the texts of all its characters. */
  function LineText(glyphs: seq<Glyph>): string {
    if glyphs == [] then "" else LineText(glyphs[..|glyphs| - 1]) + glyphs[|glyphs| - 1].text
  }

  /** get_text() of a text box: the texts of its text lines. */
  function BoxText(children: seq<Child>): string {
    if children == [] then ""
    else
      var last := children[|children| - 1];
      BoxText(children[..|children| - 1]) + (if last.TextLine? then LineText(last.glyphs) else "")
  }

  function NegTop(e: Element): real {
    -e.y1
  }

  /** `page_elements.sort(key=lambda a: a[0], reverse=True)` on (y1, element)
      pairs: descending y1, and Python's sort is stable also with reverse=True. */
  function SortByTop(elements: seq<Element>): seq<Element> {
    SortBy(elements, NegTop)
  }

  /** The sorted elements are the same elements, top edges descending. */
  lemma SortByTopSorted(elements: seq<Element>)
    ensures multiset(SortByTop(elements)) == multiset(elements)
    ensures forall i, j :: 0 <= i < j < |SortByTop(elements)| ==> SortByTop(elements)[i].y1 >= SortByTop(elements)[j].y1
  {
    SortBySorted(elements, NegTop);
    SortByPerm(elements, NegTop);
  }

  /** Elements with the same top edge keep their original relative order. */
  lemma SortByTopStable(elements: seq<Element>, i: nat, j: nat)
    requires i < j < |SortByTop(elements)|
    requires SortByTop(elements)[i].y1 == SortByTop(elements)[j].y1
    ensures Before(elements, SortByTop(elements)[i], SortByTop(elements)[j])
  {
    SortByKeepsTies(elements, NegTop, i, j);
  }
  /** The figures among the elements, in order. */
  function Figures(els: seq<Element>): (figs: seq<Element>)
    ensures forall k :: 0 <= k < |figs| ==> figs[k].Figure?
    ensures Embeds(figs, els)
  {
    if els == [] then []
    else
      var p := els[..|els| - 1];
      var e := els[|els| - 1];
      assert els == p + [e];
      EmbedsGrow(Figures(p), p, e);
      if e.Figure? then
        EmbedsSnoc(Figures(p), p, e);
        Figures(p) + [e]
      else Figures(p)
  }

  /** The recognised text of every figure among the elements, in order; the
      recogniser itself is a parameter. */
  function FigureTexts(els: seq<Element>, ocr: Element -> string): seq<string> {
    if els == [] then []
    else
      var e := els[|els| - 1];
      FigureTexts(els[..|els| - 1], ocr) + (if e.Figure? then [ocr(e)] else [])
  }

  /** One text per figure, in the figures' order. */
  lemma {:induction false} FigureTextsOfFigures(els: seq<Element>, ocr: Element -> string)
    ensures |FigureTexts(els, ocr)| == |Figures(els)|
    ensures forall k :: 0 <= k < |Figures(els)| ==> FigureTexts(els, ocr)[k] == ocr(Figures(els)[k])
  {
    if els != [] {
      FigureTextsOfFigures(els[..|els| - 1], ocr);
    }
  }
}
