/** Font-feature extraction from a text box: the set-based variant of the
    table-mode script and the ordered (font name, size) variant shared by the
    distribution and cluster scripts. */
module FontFeatures {
  import opened Seqs
  import opened Layout

  /** An entry of the table-mode script's flat format list: font names and
      sizes are put into the same list. */
  datatype FormatAtom = FontName(name: string) | FontSize(size: real)

  function LineAtoms(glyphs: seq<Glyph>): seq<FormatAtom> {
    if glyphs == [] then []
    else
      var g := glyphs[|glyphs| - 1];
      LineAtoms(glyphs[..|glyphs| - 1]) + (if g.Char? then [FontName(g.fontname), FontSize(g.size)] else [])
  }

  /** Every font name and size of every character of the box's text lines, in order. */
  function BoxAtoms(children: seq<Child>): seq<FormatAtom> {
    if children == [] then []
    else
      var c := children[|children| - 1];
      BoxAtoms(children[..|children| - 1]) + (if c.TextLine? then LineAtoms(c.glyphs) else [])
  }

  /** The format list of the table-mode script with its order fixed to first-seen. */
  function TextFormats(children: seq<Child>): seq<FormatAtom> {
    Dedup(BoxAtoms(children))
  }

  /** `text_extraction`: the box's text, and its distinct font names and sizes.
      The source takes `list(set(...))`, whose order Python leaves unspecified;
      the model returns them in first-seen order. */
  method TextExtraction(children: seq<Child>) returns (lineText: string, formatPerLine: seq<FormatAtom>)
    ensures lineText == BoxText(children)
    ensures NoDup(formatPerLine)
    ensures forall a :: a in formatPerLine <==> a in BoxAtoms(children)
    ensures formatPerLine == TextFormats(children)
  {
    lineText := BoxText(children);
    var lineFormats: seq<FormatAtom> := [];
    var i := 0;
    while i < |children|
      invariant 0 <= i <= |children|
      invariant lineFormats == BoxAtoms(children[..i])
    {
      TakeTake(children, i);
      if children[i].TextLine? {
        var glyphs := children[i].glyphs;
        var j := 0;
        while j < |glyphs|
          invariant 0 <= j <= |glyphs|
          invariant lineFormats == BoxAtoms(children[..i]) + LineAtoms(glyphs[..j])
        {
          TakeTake(glyphs, j);
          if glyphs[j].Char? {
            lineFormats := lineFormats + [FontName(glyphs[j].fontname)];
            lineFormats := lineFormats + [FontSize(glyphs[j].size)];
          }
          j := j + 1;
        }
        TakeAll(glyphs, j);
      }
      i := i + 1;
    }
    TakeAll(children, i);
    formatPerLine := Dedup(lineFormats);
  }

  function LineDetails(glyphs: seq<Glyph>): seq<FontDetail> {
    if glyphs == [] then []
    else
      var g := glyphs[|glyphs| - 1];
      LineDetails(glyphs[..|glyphs| - 1]) + (if g.Char? then [FontDetail(g.fontname, g.size)] else [])
  }

  /** The (font name, size) of every character of the box's text lines, in order. */
  function BoxDetails(children: seq<Child>): seq<FontDetail> {
    if children == [] then []
    else
      var c := children[|children| - 1];
      BoxDetails(children[..|children| - 1]) + (if c.TextLine? then LineDetails(c.glyphs) else [])
  }

  /** The distinct (font name, size) pairs of a box in first-seen order. */
  function LineFormats(children: seq<Child>): seq<FontDetail> {
    Dedup(BoxDetails(children))
  }

  /** `extract_text` of the distribution and cluster scripts: the box's text and
      its distinct (font name, size) pairs in the order first seen. */
  method ExtractText(children: seq<Child>) returns (lineText: string, lineFormats: seq<FontDetail>)
    ensures lineText == BoxText(children)
    ensures lineFormats == Dedup(BoxDetails(children))
    ensures NoDup(lineFormats)
    ensures forall f :: f in lineFormats <==> f in BoxDetails(children)
  {
    lineText := BoxText(children);
    lineFormats := [];
    var i := 0;
    while i < |children|
      invariant 0 <= i <= |children|
      invariant lineFormats == Dedup(BoxDetails(children[..i]))
    {
      BoxDetailsSnoc(children, i);
      if children[i].TextLine? {
        lineFormats := AddLineFormats(BoxDetails(children[..i]), lineFormats, children[i].glyphs);
      } else {
        assert BoxDetails(children[..i + 1]) == BoxDetails(children[..i]);
      }
      i := i + 1;
    }
    TakeAll(children, i);
  }

  /** The inner loop of `extract_text` over the characters of one text line. */
  method AddLineFormats(ghost seen: seq<FontDetail>, formats: seq<FontDetail>, glyphs: seq<Glyph>)
    returns (lineFormats: seq<FontDetail>)
    requires formats == Dedup(seen)
    ensures lineFormats == Dedup(seen + LineDetails(glyphs))
  {
    lineFormats := formats;
    var j := 0;
    AppendNil(seen);
    while j < |glyphs|
      invariant 0 <= j <= |glyphs|
      invariant lineFormats == Dedup(seen + LineDetails(glyphs[..j]))
    {
      AddGlyphStep(seen, glyphs, j);
      if glyphs[j].Char? {
        var fontDetail := FontDetail(glyphs[j].fontname, glyphs[j].size);
        if fontDetail !in lineFormats {
          lineFormats := lineFormats + [fontDetail];
        }
      }
      j := j + 1;
    }
    TakeAll(glyphs, j);
  }

  /** One more glyph: a character adds its pair unless the pair was seen. */
  lemma AddGlyphStep(seen: seq<FontDetail>, glyphs: seq<Glyph>, j: nat)
    requires j < |glyphs|
    ensures var before := Dedup(seen + LineDetails(glyphs[..j]));
      Dedup(seen + LineDetails(glyphs[..j + 1]))
        == if !glyphs[j].Char? then before
           else
             var fontDetail := FontDetail(glyphs[j].fontname, glyphs[j].size);
             if fontDetail in before then before else before + [fontDetail]
  {
    var before := seen + LineDetails(glyphs[..j]);
    LineDetailsSnoc(glyphs, j);
    if glyphs[j].Char? {
      var fontDetail := FontDetail(glyphs[j].fontname, glyphs[j].size);
      AppendAssoc(seen, LineDetails(glyphs[..j]), [fontDetail]);
      DedupSnoc(before, fontDetail);
    } else {
      AppendNil(LineDetails(glyphs[..j]));
    }
  }

  lemma LineDetailsSnoc(glyphs: seq<Glyph>, j: nat)
    requires j < |glyphs|
    ensures LineDetails(glyphs[..j + 1])
         == LineDetails(glyphs[..j]) + (if glyphs[j].Char? then [FontDetail(glyphs[j].fontname, glyphs[j].size)] else [])
  {
    TakeTake(glyphs, j);
  }

  lemma BoxDetailsSnoc(children: seq<Child>, i: nat)
    requires i < |children|
    ensures BoxDetails(children[..i + 1])
         == BoxDetails(children[..i]) + (if children[i].TextLine? then LineDetails(children[i].glyphs) else [])
  {
    TakeTake(children, i);
  }

  lemma PageDetailsSnoc(page: seq<Element>, e: nat)
    requires e < |page|
    ensures PageDetails(page[..e + 1])
         == PageDetails(page[..e]) + (if page[e].TextBox? then LineFormats(page[e].children) else [])
  {
    TakeTake(page, e);
  }

  lemma DocumentDetailsSnoc(pages: seq<seq<Element>>, p: nat)
    requires p < |pages|
    ensures DocumentDetails(pages[..p + 1]) == DocumentDetails(pages[..p]) + PageDetails(pages[p])
  {
    TakeTake(pages, p);
  }

  /** The pairs come out in the order in which they first occur among the characters. */
  lemma ExtractTextFirstSeen(children: seq<Child>, i: nat, j: nat)
    requires i < j < |LineFormats(children)|
    ensures FirstIndex(BoxDetails(children), LineFormats(children)[i])
          < FirstIndex(BoxDetails(children), LineFormats(children)[j])
  {
    DedupFirstSeen(BoxDetails(children), i, j);
  }

  /** Extracting again from the extracted list changes nothing. */
  lemma LineFormatsIdempotent(children: seq<Child>)
    ensures Dedup(LineFormats(children)) == LineFormats(children)
  {
    DedupIdempotent(BoxDetails(children));
  }

  /** All text boxes of a page, in the page's own element order. */
  function PageDetails(page: seq<Element>): seq<FontDetail> {
    if page == [] then []
    else
      var e := page[|page| - 1];
      PageDetails(page[..|page| - 1]) + (if e.TextBox? then LineFormats(e.children) else [])
  }

  function DocumentDetails(pages: seq<seq<Element>>): seq<FontDetail> {
    if pages == [] then [] else DocumentDetails(pages[..|pages| - 1]) + PageDetails(pages[|pages| - 1])
  }

  /** `gather_all_font_data`: the format lists of every text box of every page,
      concatenated in document order (without deduplication across boxes). */
  method GatherAllFontData(pages: seq<seq<Element>>) returns (fontData: seq<FontDetail>)
    ensures fontData == DocumentDetails(pages)
  {
    fontData := [];
    var p := 0;
    while p < |pages|
      invariant 0 <= p <= |pages|
      invariant fontData == DocumentDetails(pages[..p])
    {
      DocumentDetailsSnoc(pages, p);
      var page := pages[p];
      ghost var before := fontData;
      var e := 0;
      assert page[..0] == [];
      while e < |page|
        invariant 0 <= e <= |page|
        invariant fontData == before + PageDetails(page[..e])
      {
        PageDetailsSnoc(page, e);
        if page[e].TextBox? {
          var _, formatPerLine := ExtractText(page[e].children);
          AppendAssoc(before, PageDetails(page[..e]), formatPerLine);
          fontData := fontData + formatPerLine;
        }
        e := e + 1;
      }
      TakeAll(page, e);
      p := p + 1;
    }
    TakeAll(pages, p);
  }

  predicate InPageBox(page: seq<Element>, e: int, f: FontDetail) {
    0 <= e < |page| && page[e].TextBox? && f in BoxDetails(page[e].children)
  }

  predicate InDocumentBox(pages: seq<seq<Element>>, p: int, e: int, f: FontDetail) {
    0 <= p < |pages| && InPageBox(pages[p], e, f)
  }

  /** Every gathered pair is the format of a character in some text box. */
  lemma {:induction false} PageDetailsOrigin(page: seq<Element>)
    ensures forall f :: f in PageDetails(page) ==> exists e :: InPageBox(page, e, f)
  {
    if page != [] {
      var p := page[..|page| - 1];
      PageDetailsOrigin(p);
      forall f | f in PageDetails(page)
        ensures exists e :: InPageBox(page, e, f)
      {
        if f in PageDetails(p) {
          var e :| InPageBox(p, e, f);
          assert page[e] == p[e];
          assert InPageBox(page, e, f);
        } else {
          assert InPageBox(page, |page| - 1, f);
        }
      }
    }
  }

  lemma {:induction false} DocumentDetailsOrigin(pages: seq<seq<Element>>)
    ensures forall f :: f in DocumentDetails(pages) ==> exists p, e :: InDocumentBox(pages, p, e, f)
  {
    if pages != [] {
      var q := pages[..|pages| - 1];
      DocumentDetailsOrigin(q);
      PageDetailsOrigin(pages[|pages| - 1]);
      forall f | f in DocumentDetails(pages)
        ensures exists p, e :: InDocumentBox(pages, p, e, f)
      {
        if f in DocumentDetails(q) {
          var p, e :| InDocumentBox(q, p, e, f);
          assert pages[p] == q[p];
          assert InDocumentBox(pages, p, e, f);
        } else {
          var e :| InPageBox(pages[|pages| - 1], e, f);
          assert InDocumentBox(pages, |pages| - 1, e, f);
        }
      }
    }
  }
}
