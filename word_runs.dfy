/** The word-run segmenter of the JSON-printing script: the characters of a text
    box are cut into runs of words sharing one (normalised) font detail, and the
    runs alternate between subheaders and their contents. */
module WordRuns {
  import opened Wrappers
  import opened Seqs
  import opened PyStr
  import opened PyDict
  import opened Layout

  /** `normalize_fontname`: the italic Times face counts as the roman one. */
  function NormalizeFontname(fontname: string): string {
    if fontname == "Times-Italic" then "Times-Roman" else fontname
  }

  /** Only the italic Times face is renamed; normalising twice changes nothing
      more, and no name comes out as the italic face. */
  lemma NormalizeFontnameSpec(fontname: string)
    ensures fontname == "Times-Italic" <==> NormalizeFontname(fontname) != fontname
    ensures NormalizeFontname(fontname) != fontname ==> NormalizeFontname(fontname) == "Times-Roman"
    ensures NormalizeFontname(NormalizeFontname(fontname)) == NormalizeFontname(fontname)
    ensures NormalizeFontname(fontname) != "Times-Italic"
  {
    assert "Times-Roman" != "Times-Italic" by {
      assert "Times-Roman"[6] != "Times-Italic"[6];
    }
  }

  /** A character that begins the next expected word, with its font detail. */
  datatype Start = Start(detail: FontDetail, word: string)

  datatype LineScan = LineScan(starts: seq<Start>, wordIndex: nat)

  predicate AllWords(words: seq<string>) {
    forall k :: 0 <= k < |words| ==> words[k] != [] && NoSpace(words[k])
  }

  /** The word starts of one text line: a character begins word `wordIndex` when
      its text is the word's first letter, and the index then moves on. */
  function ScanLine(glyphs: seq<Glyph>, words: seq<string>): (r: LineScan)
    requires forall k :: 0 <= k < |words| ==> words[k] != []
    ensures r.wordIndex <= |words|
    ensures |r.starts| == r.wordIndex
    ensures forall k :: 0 <= k < |r.starts| ==> r.starts[k].word == words[k]
  {
    if glyphs == [] then LineScan([], 0)
    else
      var prev := ScanLine(glyphs[..|glyphs| - 1], words);
      var g := glyphs[|glyphs| - 1];
      if g.Char? && prev.wordIndex < |words| && g.text == [words[prev.wordIndex][0]] then
        var detail := FontDetail(NormalizeFontname(g.fontname), g.size);
        LineScan(prev.starts + [Start(detail, words[prev.wordIndex])], prev.wordIndex + 1)
      else prev
  }

  function LineStarts(glyphs: seq<Glyph>): seq<Start> {
    ScanLine(glyphs, SplitWords(LineText(glyphs))).starts
  }

  /** All word starts of a text box, line after line. */
  function ElementStarts(children: seq<Child>): seq<Start> {
    if children == [] then []
    else
      var c := children[|children| - 1];
      ElementStarts(children[..|children| - 1]) + (if c.TextLine? then LineStarts(c.glyphs) else [])
  }

  function StartDetails(starts: seq<Start>): (r: seq<FontDetail>)
    ensures |r| == |starts|
    ensures forall k :: 0 <= k < |starts| ==> r[k] == starts[k].detail
  {
    if starts == [] then [] else StartDetails(starts[..|starts| - 1]) + [starts[|starts| - 1].detail]
  }

  function StartWords(starts: seq<Start>): (r: seq<string>)
    ensures |r| == |starts|
    ensures forall k :: 0 <= k < |starts| ==> r[k] == starts[k].word
  {
    if starts == [] then [] else StartWords(starts[..|starts| - 1]) + [starts[|starts| - 1].word]
  }

  /** A maximal stretch of word starts with one font detail. */
  datatype Run = Run(detail: FontDetail, words: seq<string>)

  /** The runs: a new run begins exactly where the detail changes. */
  function Group(starts: seq<Start>): (runs: seq<Run>)
    ensures |runs| <= |starts|
    ensures starts == [] <==> runs == []
    ensures forall k :: 0 <= k < |runs| ==> runs[k].words != []
    ensures forall k :: 0 < k < |runs| ==> runs[k - 1].detail != runs[k].detail
    ensures runs != [] ==> runs[|runs| - 1].detail == starts[|starts| - 1].detail
  {
    if starts == [] then []
    else
      var prev := Group(starts[..|starts| - 1]);
      var s := starts[|starts| - 1];
      if prev != [] && prev[|prev| - 1].detail == s.detail then
        prev[..|prev| - 1] + [Run(s.detail, prev[|prev| - 1].words + [s.word])]
      else
        prev + [Run(s.detail, [s.word])]
  }

  function RunWords(runs: seq<Run>): seq<string> {
    if runs == [] then [] else RunWords(runs[..|runs| - 1]) + runs[|runs| - 1].words
  }

  lemma GroupSnoc(starts: seq<Start>, s: Start)
    ensures Group(starts + [s])
         == var prev := Group(starts);
            if prev != [] && prev[|prev| - 1].detail == s.detail then
              prev[..|prev| - 1] + [Run(s.detail, prev[|prev| - 1].words + [s.word])]
            else
              prev + [Run(s.detail, [s.word])]
  {
    assert (starts + [s])[..|starts|] == starts;
  }

  lemma RunWordsSnoc(runs: seq<Run>, run: Run)
    ensures RunWords(runs + [run]) == RunWords(runs) + run.words
  {
    assert (runs + [run])[..|runs|] == runs;
  }

  lemma StartWordsSnoc(starts: seq<Start>, s: Start)
    ensures StartWords(starts + [s]) == StartWords(starts) + [s.word]
  {
    assert (starts + [s])[..|starts|] == starts;
  }

  /** Every word start contributes its word exactly once, in order: the runs'
      words, read one after another, are the words of all starts. */
  lemma {:induction false} GroupWords(starts: seq<Start>)
    ensures RunWords(Group(starts)) == StartWords(starts)
  {
    if starts != [] {
      var p := starts[..|starts| - 1];
      var s := starts[|starts| - 1];
      assert p + [s] == starts;
      GroupWords(p);
      GroupWordsSnoc(p, s);
    }
  }

  lemma GroupWordsSnoc(p: seq<Start>, s: Start)
    requires RunWords(Group(p)) == StartWords(p)
    ensures RunWords(Group(p + [s])) == StartWords(p + [s])
  {
    GroupSnoc(p, s);
    StartWordsSnoc(p, s);
    var prev := Group(p);
    if prev != [] && prev[|prev| - 1].detail == s.detail {
      var q := prev[..|prev| - 1];
      var last := prev[|prev| - 1];
      SplitLast(prev);
      RunWordsSnoc(q, last);
      RunWordsSnoc(q, Run(s.detail, last.words + [s.word]));
      AppendAssoc(RunWords(q), last.words, [s.word]);
    } else {
      RunWordsSnoc(prev, Run(s.detail, [s.word]));
    }
  }

  /** The text stored for a run: `current_text.strip()` after the words were
      appended one by one, each followed by a space. */
  function RunText(run: Run): string {
    Strip(SpaceTerminated(run.words))
  }

  /** For whitespace-free words the stored text is the words joined by single spaces. */
  lemma RunTextJoin(run: Run)
    requires run.words != [] && AllWords(run.words)
    ensures RunText(run) == Join(" ", run.words)
  {
    StripSpaceTerminated(run.words);
  }

  function RunTexts(runs: seq<Run>): (r: seq<string>)
    ensures |r| == |runs|
    ensures forall k :: 0 <= k < |runs| ==> r[k] == RunText(runs[k])
  {
    if runs == [] then [] else RunTexts(runs[..|runs| - 1]) + [RunText(runs[|runs| - 1])]
  }

  /** The run texts read alternately as subheader and content: the complete
      (subheader, content) pairs, and a subheader still waiting for its content. */
  datatype Alternation = Alternation(pairs: seq<(string, string)>, pending: Option<string>)

  function Alternate(texts: seq<string>): (a: Alternation)
    ensures 2 * |a.pairs| + (if a.pending.Some? then 1 else 0) == |texts|
  {
    if texts == [] then Alternation([], None)
    else
      var a := Alternate(texts[..|texts| - 1]);
      var x := texts[|texts| - 1];
      match a.pending
      case Some(subheader) => Alternation(a.pairs + [(subheader, x)], None)
      case None => Alternation(a.pairs, Some(x))
  }

  lemma AlternateSnoc(texts: seq<string>, x: string)
    ensures Alternate(texts + [x])
         == match Alternate(texts).pending
            case Some(subheader) => Alternation(Alternate(texts).pairs + [(subheader, x)], None)
            case None => Alternation(Alternate(texts).pairs, Some(x))
  {
    assert (texts + [x])[..|texts|] == texts;
  }

  /** A subheader is pending exactly after an odd count of texts, and it is
      the last text. */
  lemma {:induction false} AlternateParity(texts: seq<string>)
    ensures Alternate(texts).pending.Some? <==> |texts| % 2 == 1
    ensures Alternate(texts).pending.Some? ==> Alternate(texts).pending.value == texts[|texts| - 1]
  {
    if texts != [] {
      var p := texts[..|texts| - 1];
      AlternateParity(p);
      AlternateSnoc(p, texts[|texts| - 1]);
      assert p + [texts[|texts| - 1]] == texts;
      ParitySucc(|p|);
    }
  }

  /** Odd-numbered texts are subheaders and even-numbered ones their contents:
      pair k is made of texts 2k and 2k+1. */
  lemma {:induction false} AlternatePositions(texts: seq<string>)
    ensures forall k :: 0 <= k < |Alternate(texts).pairs| ==>
              Alternate(texts).pairs[k] == (texts[2 * k], texts[2 * k + 1])
  {
    if texts != [] {
      var p := texts[..|texts| - 1];
      AlternatePositions(p);
      AlternateParity(p);
      AlternateSnoc(p, texts[|texts| - 1]);
      assert p + [texts[|texts| - 1]] == texts;
    }
  }

  lemma ParitySucc(n: nat)
    ensures n % 2 == 0 || n % 2 == 1
    ensures (n + 1) % 2 == 0 <==> n % 2 == 1
    ensures (n + 1) % 2 == 1 <==> n % 2 == 0
  {
  }

  /** The pairs assigned into a fresh dict in order; a repeated subheader keeps
      its first position and takes its last content. */
  function PairDict(pairs: seq<(string, string)>): Dict<string, string> {
    if pairs == [] then []
    else Put(PairDict(pairs[..|pairs| - 1]), pairs[|pairs| - 1].0, pairs[|pairs| - 1].1)
  }

  /** The dict returned for a box whose runs have the given texts: a trailing
      subheader without content is stored with the value "". */
  function SubheaderDict(texts: seq<string>): Dict<string, string> {
    var a := Alternate(texts);
    match a.pending
    case Some(subheader) => Put(PairDict(a.pairs), subheader, "")
    case None => PairDict(a.pairs)
  }

  /** Some pair has the given subheader. */
  predicate HasSubheader(pairs: seq<(string, string)>, key: string) {
    exists k :: 0 <= k < |pairs| && pairs[k].0 == key
  }

  lemma HasSubheaderSnoc(p: seq<(string, string)>, last: (string, string), key: string)
    ensures HasSubheader(p + [last], key) <==> HasSubheader(p, key) || last.0 == key
  {
    var q := p + [last];
    if HasSubheader(q, key) && last.0 != key {
      var k :| 0 <= k < |q| && q[k].0 == key;
      assert k < |p| && p[k] == q[k];
    }
    if HasSubheader(p, key) {
      var k :| 0 <= k < |p| && p[k].0 == key;
      assert q[k] == p[k];
    }
    if last.0 == key {
      assert q[|p|] == last;
    }
  }

  /** A key of the pair dict is exactly a subheader of some pair. */
  lemma {:induction false} PairDictKeys(pairs: seq<(string, string)>, key: string)
    ensures Get(PairDict(pairs), key).Some? <==> HasSubheader(pairs, key)
  {
    if pairs != [] {
      var p := pairs[..|pairs| - 1];
      var last := pairs[|pairs| - 1];
      PairDictKeys(p, key);
      SplitLast(pairs);
      HasSubheaderSnoc(p, last, key);
      if key != last.0 {
        PutOther(PairDict(p), last.0, last.1, key);
      } else {
        PutKeys(PairDict(p), last.0, last.1);
      }
    }
  }

  /** Each value of the pair dict is the content of some pair with that subheader. */
  lemma {:induction false} PairDictValues(pairs: seq<(string, string)>, key: string, v: string)
    requires Get(PairDict(pairs), key) == Some(v)
    ensures exists k :: 0 <= k < |pairs| && pairs[k].0 == key && pairs[k].1 == v
  {
    var p := pairs[..|pairs| - 1];
    var last := pairs[|pairs| - 1];
    if key == last.0 {
      PutKeys(PairDict(p), last.0, last.1);
      assert pairs[|pairs| - 1].1 == v;
    } else {
      PutOther(PairDict(p), last.0, last.1, key);
      PairDictValues(p, key, v);
      var k :| 0 <= k < |p| && p[k].0 == key && p[k].1 == v;
      assert pairs[k] == p[k];
    }
  }

  /** The keys of the pair dict are distinct. */
  lemma {:induction false} PairDictDistinct(pairs: seq<(string, string)>)
    ensures DistinctKeys(PairDict(pairs))
  {
    if pairs != [] {
      var p := pairs[..|pairs| - 1];
      PairDictDistinct(p);
      PutDistinct(PairDict(p), pairs[|pairs| - 1].0, pairs[|pairs| - 1].1);
    }
  }

  /** The last assignment to a subheader decides its content. */
  lemma {:induction false} PairDictLastWins(pairs: seq<(string, string)>, k: nat)
    requires k < |pairs|
    requires forall m :: k < m < |pairs| ==> pairs[m].0 != pairs[k].0
    ensures Get(PairDict(pairs), pairs[k].0) == Some(pairs[k].1)
  {
    if k < |pairs| - 1 {
      var p := pairs[..|pairs| - 1];
      PairDictLastWins(p, k);
      PutOther(PairDict(p), pairs[|pairs| - 1].0, pairs[|pairs| - 1].1, pairs[k].0);
    } else {
      PutKeys(PairDict(pairs[..|pairs| - 1]), pairs[k].0, pairs[k].1);
    }
  }

  /** The state `extract_text` threads through its loops. */
  datatype Segmenter = Segmenter(
    lastFontDetail: Option<FontDetail>,
    currentText: string,
    formattedText: seq<(FontDetail, string)>,
    wordFormats: seq<FontDetail>,
    subheadersAndContents: Dict<string, string>,
    currentSubheader: Option<string>)

  function Closed(runs: seq<Run>): seq<Run> {
    if runs == [] then [] else runs[..|runs| - 1]
  }

  function Formatted(runs: seq<Run>): (r: seq<(FontDetail, string)>)
    ensures |r| == |runs|
  {
    if runs == [] then [] else Formatted(runs[..|runs| - 1]) + [(runs[|runs| - 1].detail, RunText(runs[|runs| - 1]))]
  }

  lemma RunsSnoc(c: seq<Run>, run: Run)
    ensures Formatted(c + [run]) == Formatted(c) + [(run.detail, RunText(run))]
    ensures RunTexts(c + [run]) == RunTexts(c) + [RunText(run)]
  {
    assert (c + [run])[..|c|] == c;
  }

  /** The open run: its detail and its space-terminated words so far. */
  ghost predicate OpenState(g: seq<Run>, st: Segmenter) {
    && (g == [] ==> st.lastFontDetail == None && st.currentText == "")
    && (g != [] ==> st.lastFontDetail == Some(g[|g| - 1].detail)
                    && st.currentText == SpaceTerminated(g[|g| - 1].words))
  }

  /** The closed runs: `formatted_text`, and the dict holding every complete
      (subheader, content) pair, with a pending subheader after an odd count. */
  ghost predicate ClosedState(c: seq<Run>, st: Segmenter) {
    var a := Alternate(RunTexts(c));
    && st.formattedText == Formatted(c)
    && st.subheadersAndContents == PairDict(a.pairs)
    && (a.pending.Some? ==> st.currentSubheader == a.pending)
  }

  /** The segmenter state after the given word starts have been seen. */
  ghost predicate Tracks(starts: seq<Start>, st: Segmenter) {
    && OpenState(Group(starts), st)
    && ClosedState(Closed(Group(starts)), st)
    && st.wordFormats == Dedup(StartDetails(starts))
  }

  function Initial(): (st: Segmenter)
    ensures Tracks([], st)
  {
    Segmenter(None, "", [], [], [], None)
  }

  /** Closing the open run: it joins `formatted_text` and either becomes the
      current subheader (odd count) or the content stored under it (even count). */
  method CloseRun(st: Segmenter, ghost c: seq<Run>, ghost run: Run) returns (st': Segmenter)
    requires ClosedState(c, st)
    requires st.lastFontDetail == Some(run.detail) && Strip(st.currentText) == RunText(run)
    ensures ClosedState(c + [run], st')
    ensures st'.lastFontDetail == st.lastFontDetail && st'.currentText == st.currentText
    ensures st'.wordFormats == st.wordFormats
  {
    ghost var t := RunTexts(c);
    RunsSnoc(c, run);
    var text := Strip(st.currentText);
    AlternateSnoc(t, text);
    st' := st.(formattedText := st.formattedText + [(st.lastFontDetail.value, text)]);
    PendingParity(t, |st'.formattedText|);
    if |st'.formattedText| % 2 == 0 {
      st' := st'.(subheadersAndContents := Put(st'.subheadersAndContents, st.currentSubheader.value, text));
      assert (Alternate(t).pairs + [(st.currentSubheader.value, text)])[..|Alternate(t).pairs|] == Alternate(t).pairs;
    } else {
      st' := st'.(currentSubheader := Some(text));
    }
  }

  /** `len(formatted_text) % 2 == 0` after a run is closed exactly when a
      subheader was pending before it. */
  lemma PendingParity(t: seq<string>, count: nat)
    requires count == |t| + 1
    ensures count % 2 == 0 <==> Alternate(t).pending.Some?
  {
    AlternateParity(t);
    ParityNext(|t|, count);
  }

  lemma ParityNext(n: nat, m: nat)
    requires m == n + 1
    ensures m % 2 == 0 <==> n % 2 == 1
  {
  }

  lemma ExtendRun(starts: seq<Start>, s: Start)
    requires starts != [] && Group(starts)[|Group(starts)| - 1].detail == s.detail
    ensures Closed(Group(starts + [s])) == Closed(Group(starts))
    ensures Group(starts + [s]) != []
    ensures Group(starts + [s])[|Group(starts + [s])| - 1]
         == Run(s.detail, Group(starts)[|Group(starts)| - 1].words + [s.word])
    ensures Dedup(StartDetails(starts + [s])) == Dedup(StartDetails(starts))
  {
    GroupSnoc(starts, s);
    DedupSnoc(StartDetails(starts), s.detail);
    assert StartDetails(starts + [s]) == StartDetails(starts) + [s.detail];
    assert s.detail == StartDetails(starts)[|starts| - 1];
  }

  /** A start with another detail, or the first start, opens a new run. */
  lemma NewRun(starts: seq<Start>, s: Start)
    requires starts == [] || Group(starts)[|Group(starts)| - 1].detail != s.detail
    ensures Group(starts + [s]) == Group(starts) + [Run(s.detail, [s.word])]
    ensures Closed(Group(starts + [s])) == Group(starts)
    ensures Dedup(StartDetails(starts + [s]))
         == if s.detail in Dedup(StartDetails(starts)) then Dedup(StartDetails(starts))
            else Dedup(StartDetails(starts)) + [s.detail]
  {
    GroupSnoc(starts, s);
    DedupSnoc(StartDetails(starts), s.detail);
    assert StartDetails(starts + [s]) == StartDetails(starts) + [s.detail];
    var g := Group(starts) + [Run(s.detail, [s.word])];
    assert g[..|g| - 1] == Group(starts);
  }

  lemma SpaceTerminatedSnoc(ws: seq<string>, w: string)
    ensures SpaceTerminated(ws + [w]) == SpaceTerminated(ws) + w + " "
  {
    assert (ws + [w])[..|ws|] == ws;
  }

  /** The body of the character loop for a character that begins the next word. */
  method AtWordStart(st: Segmenter, ghost starts: seq<Start>, fontDetail: FontDetail, word: string)
    returns (st': Segmenter)
    requires Tracks(starts, st)
    ensures Tracks(starts + [Start(fontDetail, word)], st')
  {
    if Some(fontDetail) != st.lastFontDetail {
      st' := StartRun(st, starts, fontDetail, word);
    } else {
      ghost var g := Group(starts);
      ExtendRun(starts, Start(fontDetail, word));
      SpaceTerminatedSnoc(g[|g| - 1].words, word);
      st' := st.(currentText := st.currentText + word + " ");
    }
  }

  /** A word in another font detail than the open run's: the open run is
      closed, if there is one, and a new run begins with the word. */
  method StartRun(st: Segmenter, ghost starts: seq<Start>, fontDetail: FontDetail, word: string)
    returns (st': Segmenter)
    requires Tracks(starts, st)
    requires Some(fontDetail) != st.lastFontDetail
    ensures Tracks(starts + [Start(fontDetail, word)], st')
  {
    ghost var s := Start(fontDetail, word);
    ghost var g := Group(starts);
    NewRun(starts, s);
    st' := st;
    if st.lastFontDetail.Some? {
      SplitLast(g);
      st' := CloseRun(st', Closed(g), g[|g| - 1]);
    }
    st' := st'.(lastFontDetail := Some(fontDetail), currentText := "");
    if fontDetail !in st'.wordFormats {
      st' := st'.(wordFormats := st'.wordFormats + [fontDetail]);
    }
    SpaceTerminatedSnoc([], word);
    st' := st'.(currentText := st'.currentText + word + " ");
  }

  /** The code after the loops: the last run is closed, and stored as content
      when the run count is even or as a subheader without content when odd. */
  method Finish(st: Segmenter, ghost starts: seq<Start>)
    returns (wordFormats: seq<FontDetail>, subheadersAndContents: Dict<string, string>)
    requires Tracks(starts, st)
    ensures wordFormats == Dedup(StartDetails(starts))
    ensures subheadersAndContents == SubheaderDict(RunTexts(Group(starts)))
  {
    ghost var g := Group(starts);
    var st' := st;
    if st.lastFontDetail.Some? {
      ghost var c := Closed(g);
      ghost var t := RunTexts(c);
      ghost var run := g[|g| - 1];
      assert g == c + [run];
      RunsSnoc(c, run);
      var text := Strip(st.currentText);
      SubheaderDictSnoc(t, text);
      st' := st'.(formattedText := st'.formattedText + [(st.lastFontDetail.value, text)]);
      PendingParity(t, |st'.formattedText|);
      assert RunTexts(g) == t + [text];
      if |st'.formattedText| % 2 == 0 {
        assert st'.currentSubheader == Alternate(t).pending;
        st' := st'.(subheadersAndContents := Put(st'.subheadersAndContents, st'.currentSubheader.value, text));
      } else {
        st' := st'.(subheadersAndContents := Put(st'.subheadersAndContents, text, ""));
      }
    }
    wordFormats := st'.wordFormats;
    subheadersAndContents := st'.subheadersAndContents;
  }

  lemma SubheaderDictSnoc(t: seq<string>, x: string)
    ensures Alternate(t).pending.Some? ==>
              SubheaderDict(t + [x]) == Put(PairDict(Alternate(t).pairs), Alternate(t).pending.value, x)
    ensures Alternate(t).pending.None? ==> SubheaderDict(t + [x]) == Put(PairDict(Alternate(t).pairs), x, "")
  {
    AlternateSnoc(t, x);
    var ps := Alternate(t).pairs;
    if Alternate(t).pending.Some? {
      var q := ps + [(Alternate(t).pending.value, x)];
      assert q[..|q| - 1] == ps;
    }
  }

  /** A character that begins the next word adds a start and moves the index on. */
  lemma ScanAdvance(glyphs: seq<Glyph>, words: seq<string>, j: nat)
    requires j < |glyphs|
    requires forall k :: 0 <= k < |words| ==> words[k] != []
    requires glyphs[j].Char? && ScanLine(glyphs[..j], words).wordIndex < |words|
    requires glyphs[j].text == [words[ScanLine(glyphs[..j], words).wordIndex][0]]
    ensures ScanLine(glyphs[..j + 1], words)
         == LineScan(ScanLine(glyphs[..j], words).starts
                       + [Start(FontDetail(NormalizeFontname(glyphs[j].fontname), glyphs[j].size),
                                words[ScanLine(glyphs[..j], words).wordIndex])],
                     ScanLine(glyphs[..j], words).wordIndex + 1)
  {
    TakeTake(glyphs, j);
  }

  /** Any other character leaves the scan unchanged. */
  lemma ScanSkip(glyphs: seq<Glyph>, words: seq<string>, j: nat)
    requires j < |glyphs|
    requires forall k :: 0 <= k < |words| ==> words[k] != []
    requires !(glyphs[j].Char? && ScanLine(glyphs[..j], words).wordIndex < |words|
               && glyphs[j].text == [words[ScanLine(glyphs[..j], words).wordIndex][0]])
    ensures ScanLine(glyphs[..j + 1], words) == ScanLine(glyphs[..j], words)
  {
    TakeTake(glyphs, j);
  }

  lemma ElementStartsSnoc(children: seq<Child>, i: nat)
    requires i < |children|
    ensures ElementStarts(children[..i + 1])
         == ElementStarts(children[..i]) + (if children[i].TextLine? then LineStarts(children[i].glyphs) else [])
  {
    TakeTake(children, i);
  }

  /** `extract_text` of the JSON-printing script: the distinct normalised font
      details of the word starts, and the (subheader, content) dict built from
      the alternating runs. */
  method ExtractTextRuns(children: seq<Child>)
    returns (wordFormats: seq<FontDetail>, subheadersAndContents: Dict<string, string>)
    ensures wordFormats == Dedup(StartDetails(ElementStarts(children)))
    ensures subheadersAndContents == SubheaderDict(RunTexts(Group(ElementStarts(children))))
  {
    var st := Initial();
    var i := 0;
    while i < |children|
      invariant 0 <= i <= |children|
      invariant Tracks(ElementStarts(children[..i]), st)
    {
      ElementStartsSnoc(children, i);
      ghost var seen := ElementStarts(children[..i]);
      ghost var next := ElementStarts(children[..i + 1]);
      if children[i].TextLine? {
        var words := SplitWords(LineText(children[i].glyphs));
        ghost var after;
        st, after := SegmentLine(st, seen, children[i].glyphs, words);
        assert after == next;
      } else {
        assert next == seen;
      }
      i := i + 1;
    }
    TakeAll(children, i);
    wordFormats, subheadersAndContents := Finish(st, ElementStarts(children));
  }

  /** The character loop over one text line, given the line's words:
      `word_index` restarts at 0 while the open run carries over from the
      previous line. */
  method SegmentLine(st: Segmenter, ghost before: seq<Start>, glyphs: seq<Glyph>, words: seq<string>)
    returns (st': Segmenter, ghost seen: seq<Start>)
    requires forall k :: 0 <= k < |words| ==> words[k] != []
    requires Tracks(before, st)
    ensures seen == before + ScanLine(glyphs, words).starts
    ensures Tracks(seen, st')
  {
    st' := st;
    var wordIndex := 0;
    var j := 0;
    seen := before;
    assert ScanLine(glyphs[..0], words) == LineScan([], 0);
    assert before + ScanLine(glyphs[..0], words).starts == before;
    while j < |glyphs|
      invariant 0 <= j <= |glyphs|
      invariant wordIndex == ScanLine(glyphs[..j], words).wordIndex
      invariant seen == before + ScanLine(glyphs[..j], words).starts
      invariant Tracks(seen, st')
    {
      st', wordIndex, seen := ScanCharacter(st', before, seen, glyphs, words, j, wordIndex);
      j := j + 1;
    }
    TakeAll(glyphs, j);
  }

  method ScanCharacter(st: Segmenter, ghost before: seq<Start>, ghost seen: seq<Start>, glyphs: seq<Glyph>, words: seq<string>, j: nat, wordIndex: nat)
    returns (st': Segmenter, wordIndex': nat, ghost seen': seq<Start>)
    requires j < |glyphs|
    requires forall k :: 0 <= k < |words| ==> words[k] != []
    requires wordIndex == ScanLine(glyphs[..j], words).wordIndex
    requires seen == before + ScanLine(glyphs[..j], words).starts
    requires Tracks(seen, st)
    ensures wordIndex' == ScanLine(glyphs[..j + 1], words).wordIndex
    ensures seen' == before + ScanLine(glyphs[..j + 1], words).starts
    ensures Tracks(seen', st')
  {
    ghost var scan := ScanLine(glyphs[..j], words);
    var character := glyphs[j];
    if character.Char? && wordIndex < |words| && character.text == [words[wordIndex][0]] {
      ScanAdvance(glyphs, words, j);
      var fontDetail := FontDetail(NormalizeFontname(character.fontname), character.size);
      var word := words[wordIndex];
      st' := AtWordStart(st, seen, fontDetail, word);
      seen' := seen + [Start(fontDetail, word)];
      AppendAssoc(before, scan.starts, [Start(fontDetail, word)]);
      wordIndex' := wordIndex + 1;
    } else {
      ScanSkip(glyphs, words, j);
      st', wordIndex', seen' := st, wordIndex, seen;
    }
  }

  /** No alias survives normalisation: the word formats never name the italic face. */
  lemma {:induction false} StartsNormalized(children: seq<Child>)
    ensures forall k :: 0 <= k < |ElementStarts(children)| ==> ElementStarts(children)[k].detail.fontname != "Times-Italic"
  {
    if children != [] {
      var p := children[..|children| - 1];
      StartsNormalized(p);
      var c := children[|children| - 1];
      if c.TextLine? {
        ScanNormalized(c.glyphs, SplitWords(LineText(c.glyphs)));
      }
    }
  }

  lemma {:induction false} ScanNormalized(glyphs: seq<Glyph>, words: seq<string>)
    requires forall k :: 0 <= k < |words| ==> words[k] != []
    ensures forall k :: 0 <= k < |ScanLine(glyphs, words).starts| ==>
              ScanLine(glyphs, words).starts[k].detail.fontname != "Times-Italic"
  {
    if glyphs != [] {
      ScanNormalized(glyphs[..|glyphs| - 1], words);
      if glyphs[|glyphs| - 1].Char? {
        NormalizeFontnameSpec(glyphs[|glyphs| - 1].fontname);
      }
    }
  }

  /** With no word start at all, the result is `([], {})`. */
  lemma NoStartsEmpty(children: seq<Child>)
    requires ElementStarts(children) == []
    ensures Dedup(StartDetails(ElementStarts(children))) == []
    ensures SubheaderDict(RunTexts(Group(ElementStarts(children)))) == []
  {
  }
}
