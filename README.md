# PDF page extraction, modelled in Dafny

The repository turns the pages of one PDF manual into per-page JSON records
for a search index. A layout analyser supplies positioned elements for each
page. The scripts then do the following in plain Python:

- sort the elements top to bottom;
- collect the font details of each text element;
- classify text as heading, subheading or content;
- render tables as pipe-delimited strings;
- attach the recognised text of figures;
- build the page records.

There are four script variants, all modelled here:

- `utils/pdf_parser.py`: a single-pass table-mode sequencer. The module
  `TableSequencer` models it; `FontFeatures.TextExtraction` models its
  `text_extraction`.
- `utils/pdf_parser_fixed_dist.py`: classification by the first font size
  against the median and the inter-quartile range (module `DistPolicy`).
- `utils/pdf_parser_cluster_model.py`: classification by a 3-cluster
  predictor whose clusters are ranked by population (module `ClusterPolicy`).
- `utils/pdf_parser_json_printing.py`: a word-run segmenter that alternates
  subheader and content runs and merges them into one dictionary per page.
  The modules `WordRuns` and `JsonPrinting` model it.

Two small post-processing scripts are modelled as well. `ModifyJson` models
the 50-character subheader chunker. `Semantic` models the text collection in
`load_data`.

Shared pieces:

- `Layout`: the page elements and the stable top-to-bottom sort.
- `TableRender`: the table renderer, identical in all four scripts.
- `PageRecords`: the per-page content dictionary, the `"Page_<n>"` keys and
  the output records.
- `PyStr`, `PyDict`, `JsonValue`: Python strings, insertion-ordered
  dictionaries and parsed JSON values.
- `Seqs`, `ResultSeqs` and `Wrappers`: general sequence facts, "the first
  exception ends the loop", and `Option`/`Result`.

Every loop of the source is a Dafny `method` with loop invariants. Each
method is proved equal to a recursive specification function, and the
properties are proved as lemmas about those functions. The distribution
script's module-level counters are the fields of the class
`DistPolicy.Counters`. Python exceptions (`KeyError`, `TypeError`,
`AttributeError`, `ValueError`, `IndexError`, `NameError`) are values of a
`Result` type. Each is raised where the modelled Python code raises it. The
calls into the PDF libraries are assumed to succeed; one of them likely
does not, as "## Left out" records.

Three things the code does that a reader might not expect:

- In `utils/pdf_parser.py`, `lower_side` and `upper_side` are module
  globals. They keep their values from page to page. `NameError` is raised
  only when no table has been entered anywhere so far. The model threads
  these bounds through the pages as an `Option`.
- Text is suppressed while the table flag is set. This is decided by the
  flag, not by the text's position, so text inside a table's bounds reaches
  the content whenever the flag is clear.
- The classifier's missing-clusters error is `ValueError`. Without font
  metadata, the predictor is asked about the point (0, 0). The text does not
  default to content.

## Model

| member | source | states |
|---|---|---|
| Layout.SortByTop | utils/pdf_parser.py:170-172 | the page elements by descending y1; its properties are Layout.SortByTopSorted (a permutation, ordered) and Layout.SortByTopStable (ties keep layout order) |
| Layout.SortByTopSorted | utils/pdf_parser.py:170-172 | the sorted page is a permutation of the page's elements, with top edges (y1) non-increasing |
| Layout.SortByTopStable | utils/pdf_parser.py:170-172 | two elements with the same top edge keep their layout order (the sort with reverse=True is stable) |
| Seqs.SortByPerm | utils/pdf_parser.py:172 | sorting by a key only rearranges: same multiset |
| Seqs.SortBySorted | utils/pdf_parser.py:172 | the result is ordered by the key |
| Seqs.SortByStable | utils/pdf_parser.py:172 | for each key value, the elements having it appear in input order |
| Seqs.SortByKeepsTies | utils/pdf_parser.py:172 | two equal-key elements of the result come in the same order in the input |
| Seqs.InsertByPerm | utils/pdf_parser.py:172 | one insertion step adds exactly the inserted element |
| Seqs.InsertBySorted | utils/pdf_parser.py:172 | inserting into a sorted list keeps it sorted |
| Layout.Figures | utils/pdf_parser_fixed_dist.py:286-294 | the figures of a page are figures only, taken in page order |
| Layout.FigureTextsOfFigures | utils/pdf_parser_fixed_dist.py:286-295 | one recognised text per figure, text k being the recognition of figure k |
| PageRecords.ExtractAndProcessImages | utils/pdf_parser_fixed_dist.py:277-295 | the loop returns the recognised text of every figure of the sorted page, in order |
| PageRecords.ProcessTables | utils/pdf_parser_fixed_dist.py:305-317 | one rendering per table of the page, rendering k being table k's |
| FontFeatures.TextExtraction | utils/pdf_parser.py:45-65 | the text is get_text(); the formats hold no duplicate and contain exactly the font names and sizes of the characters of the text lines |
| FontFeatures.ExtractText | utils/pdf_parser_fixed_dist.py:66-89 | the pairs (font name, size) of the element's characters, each once, as the first-seen deduplication; a pair is listed exactly when some character has it |
| FontFeatures.AddLineFormats | utils/pdf_parser_fixed_dist.py:72-79 | after one text line the list is still the first-seen deduplication of all characters seen |
| FontFeatures.AddGlyphStep | utils/pdf_parser_fixed_dist.py:73-79 | a character adds its pair exactly when the pair is not yet listed; other children add nothing |
| FontFeatures.ExtractTextFirstSeen | utils/pdf_parser_cluster_model.py:73-82 | the pairs come out in the order of their first occurrence among the characters |
| FontFeatures.LineFormatsIdempotent | utils/pdf_parser_cluster_model.py:73-82 | deduplicating the result again changes nothing |
| FontFeatures.GatherAllFontData | utils/pdf_parser_fixed_dist.py:93-104 | the concatenation, in page and element order, of the pair lists of all text elements |
| FontFeatures.PageDetailsOrigin | utils/pdf_parser_fixed_dist.py:98-102 | every pair gathered from a page comes from a text element of that page |
| FontFeatures.DocumentDetailsOrigin | utils/pdf_parser_fixed_dist.py:97-102 | every gathered pair comes from a text element of some page |
| Seqs.Dedup | utils/pdf_parser_fixed_dist.py:78-79 | the deduplication has no duplicate, loses no element and adds none |
| Seqs.DedupSnoc | utils/pdf_parser_fixed_dist.py:78-79 | one more element is appended exactly when it is not yet present |
| Seqs.DedupFirstSeen | utils/pdf_parser_fixed_dist.py:78-79 | deduplicated elements keep the order of their first occurrences |
| Seqs.DedupIdempotent | utils/pdf_parser_cluster_model.py:78-82 | deduplicating twice is deduplicating once |
| Seqs.DedupOfNoDup | utils/pdf_parser_cluster_model.py:78-82 | a list without duplicates is its own deduplication |
| TableRender.CleanCell | utils/pdf_parser.py:125-132 | None becomes "None"; a string keeps its length with every line break turned into a space |
| TableRender.DropLast | utils/pdf_parser.py:136 | s[:-1]: the empty string stays empty, otherwise the last character goes |
| TableRender.TableString | utils/pdf_parser.py:119-137 | the rendering promised for a table: the rendered rows joined by line breaks; TableRender.TableConverter proves the loop computes it, TableRender.TableLines and TableRender.RowCells recover the rows and cells from it |
| TableRender.TableConverter | utils/pdf_parser.py:119-137 | the loop returns each row as "\|" + cells joined by "\|" + "\|", rows separated by line breaks, no trailing break |
| TableRender.AccumulatedTrim | utils/pdf_parser.py:134-136 | dropping the last character of the accumulated string gives the rendering |
| TableRender.AccumulatedIsJoin | utils/pdf_parser.py:134 | for a non-empty table the accumulated string is the rendering plus one line break |
| TableRender.TableLines | utils/pdf_parser.py:134-136 | an empty table renders as ""; otherwise splitting the rendering at line breaks gives back the rendered rows |
| TableRender.RenderRowOneLine | utils/pdf_parser.py:125-134 | a rendered row contains no line break |
| TableRender.RowCells | utils/pdf_parser.py:134 | when no cell contains "\|", splitting a row at "\|" gives "", the cleaned cells, "" |
| TableSequencer.EnterTable | utils/pdf_parser.py:211-230 | the entry test of a rectangle; its properties are TableSequencer.StepRect (when it enters, what it appends, the bounds it sets) and TableSequencer.EnterInv |
| TableSequencer.LeaveTable | utils/pdf_parser.py:232-238 | the exit test: NameError without bounds, nothing inside them, IndexError at a final rectangle outside them, leaving before a non-rectangle; stated by TableSequencer.StepRectLeaves, TableSequencer.RectRaises and TableSequencer.LeaveInv |
| TableSequencer.Step | utils/pdf_parser.py:175-238 | the effect of one element of the sorted page; TableSequencer.ProcessElement proves the loop body equals it, TableSequencer.StepText, TableSequencer.StepImages, TableSequencer.StepRect and TableSequencer.StepInv state its cases |
| TableSequencer.Run | utils/pdf_parser.py:175-238 | the state after the first n elements, or the first exception; stated by TableSequencer.FailureStays, TableSequencer.RunInv, TableSequencer.RunErrors and TableSequencer.RectRaises |
| TableSequencer.RunPage | utils/pdf_parser.py:150-238 | the whole page from the bounds carried in; TableSequencer.SequencePage equals it, TableSequencer.PageLockstep, TableSequencer.TablesAtMostOnce and TableSequencer.RunImages state its properties |
| TableSequencer.SequencePage | utils/pdf_parser.py:150-238 | the page loop yields the state of the sequencer run over the sorted page, or the exception it raises |
| TableSequencer.ProcessElement | utils/pdf_parser.py:175-238 | one loop pass is one sequencer step: text, figure and rectangle cases in the code's order |
| TableSequencer.FailureStays | utils/pdf_parser.py:175-238 | once a step raises, the page's result is that exception |
| TableSequencer.StepText | utils/pdf_parser.py:182-194 | a text element never raises; with the flag set nothing changes, otherwise its text goes to page_text and page_content and its formats to line_format, the other lists unchanged |
| TableSequencer.StepImages | utils/pdf_parser.py:197-205 | text_from_images gains the recognised text exactly at a figure |
| TableSequencer.RunImages | utils/pdf_parser.py:197-205 | text_from_images is the recognised text of every figure of the sorted page, in order |
| TableSequencer.StepRect | utils/pdf_parser.py:211-230 | a rectangle enters table mode exactly when first_element holds and table_num + 1 <= len(tables); entering appends that table's rendering and the "table" placeholder and sets the bounds, otherwise lists and bounds stay |
| TableSequencer.StepRectLeaves | utils/pdf_parser.py:233-238 | table_num goes up by one exactly when the rectangle lies outside the bounds and the next element is not a rectangle, and then first_element is set and the flag cleared |
| TableSequencer.RunErrors | utils/pdf_parser.py:233-235 | the only exceptions are NameError, only while no bounds were ever set, and IndexError, only at a final rectangle; TableSequencer.RectRaises states the converse for all inputs |
| TableSequencer.RectRaises | utils/pdf_parser.py:211-238 | for every page and every rectangle reached without an exception: unset bounds after the entry test make the page raise NameError; a rectangle outside the bounds that is the last element makes it raise IndexError; in every other case the rectangle raises nothing |
| TableSequencer.NameErrorExample | utils/pdf_parser.py:233 | a page with one rectangle, no table and no bounds yet raises NameError |
| TableSequencer.IndexErrorExample | utils/pdf_parser.py:235 | a page whose last element is a rectangle outside the table's bounds raises IndexError |
| TableSequencer.TableExample | utils/pdf_parser.py:175-238 | a page with a table border, text inside it, a border edge and text after: the table is read once, the inner text is suppressed, table_num becomes 1 |
| TableSequencer.BoundsStay | utils/pdf_parser.py:215-216 | bounds set before a page are still set after it |
| TableSequencer.AddTextLockstep | utils/pdf_parser.py:188-190 | appending a text keeps page_text and line_format the same length |
| TableSequencer.AddImageLockstep | utils/pdf_parser.py:207-208 | appending a figure's placeholder keeps them the same length |
| TableSequencer.AddTableLockstep | utils/pdf_parser.py:229-230 | appending a table's placeholder keeps them the same length |
| TableSequencer.EnterInv | utils/pdf_parser.py:213-230 | entering a table keeps the invariant: lockstep lists, flag == not first_element, tables read are a prefix-embedding of the page's tables |
| TableSequencer.LeaveInv | utils/pdf_parser.py:233-238 | leaving a table keeps the invariant |
| TableSequencer.StepInv | utils/pdf_parser.py:175-238 | every successful step keeps the invariant |
| TableSequencer.RunInv | utils/pdf_parser.py:175-238 | every successful run prefix satisfies the invariant |
| TableSequencer.PageLockstep | utils/pdf_parser.py:188-190 | after a page, page_text and line_format have equal length, and the flag is the negation of first_element |
| TableSequencer.TablesTakenEmbeds | utils/pdf_parser.py:213-227 | the tables read so far are renderings of distinct page tables, in order |
| TableSequencer.TablesAtMostOnce | utils/pdf_parser.py:213-238 | each table of a page is read at most once, in order, so len(text_from_tables) <= len(tables) |
| TableSequencer.Document | utils/pdf_parser.py:150-249 | text_per_page after n pages, with the bounds threaded from page to page; TableSequencer.ExtractPages equals it, TableSequencer.DocumentStep, TableSequencer.DocumentEntries and TableSequencer.DocumentFailureStays state its properties |
| TableSequencer.ExtractPages | utils/pdf_parser.py:150-249 | the script's page loop yields the dictionary of all pages, the bounds carried across pages, or the first exception |
| TableSequencer.ExtractPage | utils/pdf_parser.py:240-249 | one page's lists are stored under "Page_<n>"; its exception is the document's |
| TableSequencer.DocumentFailureStays | utils/pdf_parser.py:150-249 | once a page raises, the document's result is that exception |
| TableSequencer.DocumentStep | utils/pdf_parser.py:241-249 | one more page stores its lists under its key in the dictionary of the earlier pages |
| TableSequencer.DocumentEntries | utils/pdf_parser.py:241-249 | after n pages the dictionary has n entries, entry k being ("Page_k", the lists of page k run from the bounds the earlier pages left) |
| TableSequencer.PageEntryKept | utils/pdf_parser.py:243-249 | appending an entry keeps the earlier entries |
| TableSequencer.ProcessPdfData | utils/pdf_parser.py:263-277 | one record per page is appended, in dictionary order, with the page key and the concatenated page_content; earlier records are kept |
| PyStr.NatToString | utils/pdf_parser.py:241 | str(n): decimal digits without a leading zero |
| PyStr.NatToStringInjective | utils/pdf_parser.py:241 | different numbers give different strings |
| PageRecords.PageKeyInjective | utils/pdf_parser_fixed_dist.py:408 | different pages get different keys |
| PageRecords.PagesDict | utils/pdf_parser_fixed_dist.py:403-408 | entry k of text_per_page is ("Page_k", the value of page k) |
| PageRecords.PagesDictSnoc | utils/pdf_parser_fixed_dist.py:408 | storing the next page under its new key appends one entry |
| PageRecords.FreshPageKey | utils/pdf_parser_fixed_dist.py:408 | the next page's key is not yet in the dictionary |
| PageRecords.AppendTo | utils/pdf_parser_fixed_dist.py:346-347 | page_content[key].append(text) gives KeyError unless key is one of the five keys; otherwise that list alone gains the text |
| PageRecords.RecordOf | utils/pdf_parser_fixed_dist.py:361-378 | the record promised for one entry: the lists joined by line breaks, the key as page number and location, fixed values elsewhere; PageRecords.StructurePdfData and PageRecords.HeaderLines are its lemmas |
| PageRecords.StructurePdfData | utils/pdf_parser_fixed_dist.py:354-380 | one record per page in dictionary order: each list joined by line breaks, the key as page number and location, fixed values elsewhere |
| PageRecords.HeaderLines | utils/pdf_parser_fixed_dist.py:367 | when no heading contains a line break, splitting the header field gives back the headings |
| DistPolicy.DistCategory | utils/pdf_parser_fixed_dist.py:111-132 | the band of a text element from its first size; stated by DistPolicy.DistBands, DistPolicy.DistBoundaries, DistPolicy.DistFirstOnly and DistPolicy.DistMonotone |
| DistPolicy.DistBands | utils/pdf_parser_fixed_dist.py:114-132 | heading exactly when the first size exceeds median + IQR; subheading exactly when median + 0.25 IQR < size <= median + IQR; content otherwise, and always without formats |
| DistPolicy.DistBoundaries | utils/pdf_parser_fixed_dist.py:123-129 | a size equal to median + IQR (IQR > 0) is a subheading; a size equal to median + 0.25 IQR is content |
| DistPolicy.DistFirstOnly | utils/pdf_parser_fixed_dist.py:118 | only the first pair decides the band |
| DistPolicy.DistMonotone | utils/pdf_parser_fixed_dist.py:123-132 | for IQR >= 0 a larger first size never gives a lower band |
| DistPolicy.Counters.constructor | utils/pdf_parser_fixed_dist.py:49-51 | the three counters start at 0 |
| DistPolicy.Counters.CategorizeTextBasedOnDist | utils/pdf_parser_fixed_dist.py:111-135 | the result is {band name: text}; with formats exactly the band's counter goes up by one, without formats no counter changes |
| DistPolicy.AppendName | utils/pdf_parser_fixed_dist.py:346-347 | appending under a band's name never raises and extends that band's list only |
| DistPolicy.Bucket | utils/pdf_parser_fixed_dist.py:339-347 | the texts of one band, in sorted order; stated by DistPolicy.BucketStep, DistPolicy.BucketsPartition and DistPolicy.BucketInOrder |
| DistPolicy.DistContent | utils/pdf_parser_fixed_dist.py:321-350 | the page dictionary promised: banded texts, figure texts, table renderings; DistPolicy.ProcessPage and DistPolicy.ExtractDocument equal it |
| DistPolicy.BucketStep | utils/pdf_parser_fixed_dist.py:339-347 | one more element adds its text to its band and its count to its band's tally |
| DistPolicy.TextElementStep | utils/pdf_parser_fixed_dist.py:340-347 | a text element's append succeeds and keeps the lists equal to the bands of the elements seen |
| DistPolicy.OtherElementStep | utils/pdf_parser_fixed_dist.py:339-340 | any other element changes nothing |
| DistPolicy.CategorizeElements | utils/pdf_parser_fixed_dist.py:339-347 | heading, subheading and content each gain the texts of their band in sorted order; images and tables unchanged; each counter goes up by its band's tally |
| DistPolicy.ProcessPage | utils/pdf_parser_fixed_dist.py:321-350 | the page's dictionary: banded texts of the sorted page, figure texts, table renderings; counters as above |
| DistPolicy.BucketsPartition | utils/pdf_parser_fixed_dist.py:339-347 | every text element lands in exactly one of the three lists; the heading and subheading counters equal their list lengths, content's at most its list's |
| DistPolicy.BucketInOrder | utils/pdf_parser_fixed_dist.py:339-347 | each list keeps the texts in sorted page order |
| DistPolicy.ExtractDocument | utils/pdf_parser_fixed_dist.py:403-408 | text_per_page holds page k's dictionary under "Page_k"; each counter goes up by its band's tally over the document |
| ClusterPolicy.CountLess | utils/pdf_parser_cluster_model.py:121-124 | the number of distinct names below a name is at most the number of names |
| ClusterPolicy.CountLessBelow | utils/pdf_parser_cluster_model.py:121-124 | a name's code plus its own presence stays within the names |
| ClusterPolicy.CountLessMonotone | utils/pdf_parser_cluster_model.py:121-124 | a smaller name has a smaller count |
| ClusterPolicy.Encode | utils/pdf_parser_cluster_model.py:121-124 | LabelEncoder's code of a name: the number of distinct names sorting before it; stated by ClusterPolicy.EncodeRange, ClusterPolicy.EncodeOrder and ClusterPolicy.EncodeInjective |
| ClusterPolicy.EncodeRange | utils/pdf_parser_cluster_model.py:121-124 | LabelEncoder gives codes 0 .. number of distinct names - 1 |
| ClusterPolicy.EncodeOrder | utils/pdf_parser_cluster_model.py:121-124 | codes follow the sorted order of the names |
| ClusterPolicy.EncodeInjective | utils/pdf_parser_cluster_model.py:121-124 | different names get different codes |
| ClusterPolicy.Query | utils/pdf_parser_cluster_model.py:159-168 | the predictor's query point: mean code and mean size, (0, 0) without metadata; stated by ClusterPolicy.QueryBounds |
| ClusterPolicy.QueryBounds | utils/pdf_parser_cluster_model.py:159-171 | the query point's mean code lies within the codes and its mean size between the least and greatest size |
| Seqs.MeanBounds | utils/pdf_parser_cluster_model.py:165-168 | a mean lies between the bounds of what it averages |
| ClusterPolicy.InitializeFontClusters | utils/pdf_parser_cluster_model.py:136-146 | IndexError unless there are at least three distinct labels; otherwise the keys content, subheading, heading in that order |
| ClusterPolicy.ClustersBySize | utils/pdf_parser_cluster_model.py:136-146 | heading gets the least populated label, subheading the next, content the next; three distinct labels that occur, none of the other labels less populated than heading's |
| ClusterPolicy.ClusterTies | utils/pdf_parser_cluster_model.py:136-139 | labels of equal population stay in order of first occurrence |
| ClusterPolicy.MatchIndex | utils/pdf_parser_cluster_model.py:174-177 | the index of the first entry holding the label, or the length when none does |
| ClusterPolicy.CategorizeTextBasedOnClusters | utils/pdf_parser_cluster_model.py:152-180 | ValueError exactly when the clusters are missing or empty; otherwise a single-entry dictionary whose value is the text |
| ClusterPolicy.ClusterCategory | utils/pdf_parser_cluster_model.py:171-177 | the first key whose cluster number is predicted, else "content"; stated by ClusterPolicy.MatchIndex and ClusterPolicy.CategoryOfClusters |
| ClusterPolicy.CategoryOfClusters | utils/pdf_parser_cluster_model.py:139-177 | with initialised clusters, heading exactly for the least populated label, subheading for the next, content otherwise |
| ClusterPolicy.ClusterRun | utils/pdf_parser_cluster_model.py:375-383 | the categorising loop: the dictionary or the first exception; ClusterPolicy.CategorizeElements equals it, ClusterPolicy.RunFailureStays, ClusterPolicy.ClusterRunSelects, ClusterPolicy.ClusterRunWithoutClusters and ClusterPolicy.InitializedPartition state its properties |
| ClusterPolicy.ClusterContent | utils/pdf_parser_cluster_model.py:357-386 | the page dictionary promised, or the categoriser's exception; ClusterPolicy.ProcessPage equals it, ClusterPolicy.InitializedDocument states it never fails after initialisation |
| ClusterPolicy.RunFailureStays | utils/pdf_parser_cluster_model.py:375-383 | an exception ends the categorising loop |
| ClusterPolicy.CategorizeElements | utils/pdf_parser_cluster_model.py:375-383 | the loop yields the categorised dictionary or the first exception |
| ClusterPolicy.ProcessPage | utils/pdf_parser_cluster_model.py:357-386 | figure texts, categorised texts of the sorted page and table renderings, or the categoriser's exception |
| ClusterPolicy.SelectedSnoc | utils/pdf_parser_cluster_model.py:382-383 | the last text element adds its text to the list its category names |
| ClusterPolicy.ClusterRunSelects | utils/pdf_parser_cluster_model.py:375-383 | with clusters whose keys name lists, nothing raises and every list gains exactly the texts of its category, in sorted order |
| ClusterPolicy.ClusterRunWithoutClusters | utils/pdf_parser_cluster_model.py:155-156 | without clusters the first text element raises ValueError; a page without text passes unchanged |
| ClusterPolicy.InitializedPartition | utils/pdf_parser_cluster_model.py:375-383 | with initialised clusters, heading, subheading and content together hold every text once; images and tables gain nothing |
| ClusterPolicy.ClusterDocument | utils/pdf_parser_cluster_model.py:455-463 | a successful run over n pages has n dictionaries |
| ClusterPolicy.ExtractDocument | utils/pdf_parser_cluster_model.py:455-463 | text_per_page after the page loop: page k's dictionary under "Page_k", or the first page's exception |
| ClusterPolicy.ExtractPage | utils/pdf_parser_cluster_model.py:458-463 | one page's dictionary is stored under its key; its exception is the document's |
| ClusterPolicy.DocumentFailureStays | utils/pdf_parser_cluster_model.py:455-463 | once a page raises, the document's result is that exception |
| ClusterPolicy.InitializedDocument | utils/pdf_parser_cluster_model.py:448-463 | after a successful initialisation no page raises and every page has its dictionary |
| WordRuns.NormalizeFontnameSpec | utils/pdf_parser_json_printing.py:66-69 | only "Times-Italic" changes, into "Times-Roman"; normalising twice is normalising once; no result is "Times-Italic" |
| PyStr.SplitWords | utils/pdf_parser_json_printing.py:83 | split() gives non-empty words without whitespace |
| WordRuns.ScanLine | utils/pdf_parser_json_printing.py:83-113 | word_index never exceeds the number of words; one word start per word consumed, the words in order |
| WordRuns.ElementStarts | utils/pdf_parser_json_printing.py:81-113 | the word starts of a text box, line after line; stated by WordRuns.SegmentLine, WordRuns.StartDetails, WordRuns.StartWords and WordRuns.StartsNormalized |
| WordRuns.StartDetails | utils/pdf_parser_json_printing.py:87-90 | the font detail of every word start, in order |
| WordRuns.StartWords | utils/pdf_parser_json_printing.py:92-112 | the word of every word start, in order |
| WordRuns.Group | utils/pdf_parser_json_printing.py:94-112 | runs are non-empty, adjacent runs have different details, the last run has the last start's detail |
| WordRuns.GroupSnoc | utils/pdf_parser_json_printing.py:94-112 | a start with the open run's detail extends it, any other opens a new run |
| WordRuns.GroupWords | utils/pdf_parser_json_printing.py:112-113 | the words of the runs are the words of the starts, each once, in order |
| WordRuns.GroupWordsSnoc | utils/pdf_parser_json_printing.py:112-113 | one more start keeps the words of the runs equal to the words of the starts |
| WordRuns.RunTextJoin | utils/pdf_parser_json_printing.py:97-112 | a stripped run text is its words joined by single spaces |
| WordRuns.RunTexts | utils/pdf_parser_json_printing.py:97 | the stripped text of every run, in order |
| PyStr.StripSpaceTerminated | utils/pdf_parser_json_printing.py:97-112 | stripping words each followed by a space gives the words joined by spaces |
| WordRuns.Alternate | utils/pdf_parser_json_printing.py:100-106 | the runs pair up, with at most one left pending |
| WordRuns.AlternateSnoc | utils/pdf_parser_json_printing.py:100-106 | a run after a pending subheader becomes its content, otherwise it becomes the pending subheader |
| WordRuns.AlternateParity | utils/pdf_parser_json_printing.py:101-106 | a subheader is pending exactly after an odd number of runs, and it is the last run |
| WordRuns.AlternatePositions | utils/pdf_parser_json_printing.py:101-106 | pair k is (run 2k, run 2k+1): odd-numbered runs are subheaders, even-numbered ones their contents |
| WordRuns.HasSubheaderSnoc | utils/pdf_parser_json_printing.py:102-104 | a key is a subheader of the longer pair list exactly when it was one before or is the new pair's |
| WordRuns.PairDictKeys | utils/pdf_parser_json_printing.py:102-104 | the dictionary has a key exactly when some pair has it as subheader |
| WordRuns.PairDictValues | utils/pdf_parser_json_printing.py:102-104 | every value stored is the content of a pair with that subheader |
| WordRuns.PairDictDistinct | utils/pdf_parser_json_printing.py:102-104 | no key occurs twice |
| WordRuns.PairDictLastWins | utils/pdf_parser_json_printing.py:102-104 | a repeated subheader keeps the content of its last pair |
| WordRuns.SubheaderDict | utils/pdf_parser_json_printing.py:100-123 | the dictionary of a box's runs, a trailing subheader mapped to ""; stated by WordRuns.SubheaderDictSnoc, WordRuns.PairDictKeys, WordRuns.PairDictValues, WordRuns.PairDictLastWins and WordRuns.Finish |
| WordRuns.SubheaderDictSnoc | utils/pdf_parser_json_printing.py:116-123 | the final run is stored under the pending subheader, or becomes a key with value "" |
| WordRuns.NoStartsEmpty | utils/pdf_parser_json_printing.py:116-130 | an element where no character starts a word gives ([], {}) |
| WordRuns.StartsNormalized | utils/pdf_parser_json_printing.py:87-90 | no recorded detail has the font "Times-Italic" |
| WordRuns.ScanNormalized | utils/pdf_parser_json_printing.py:87-90 | no word start of a line has the font "Times-Italic" |
| WordRuns.ScanAdvance | utils/pdf_parser_json_printing.py:91-113 | a character equal to the next word's first letter records that word with its normalised detail and advances word_index |
| WordRuns.ScanSkip | utils/pdf_parser_json_printing.py:85-93 | any other character changes nothing |
| WordRuns.Initial | utils/pdf_parser_json_printing.py:73-79 | the initial variables track no word start |
| WordRuns.CloseRun | utils/pdf_parser_json_printing.py:95-106 | closing a run appends (detail, stripped text) to formatted_text and stores or holds it by parity |
| WordRuns.PendingParity | utils/pdf_parser_json_printing.py:101 | an even length of formatted_text means a subheader is pending |
| WordRuns.ExtendRun | utils/pdf_parser_json_printing.py:112-113 | a word with the current detail extends the open run; word_formats unchanged |
| WordRuns.NewRun | utils/pdf_parser_json_printing.py:94-111 | a word with a new detail opens a run and adds the detail to word_formats if new |
| WordRuns.AtWordStart | utils/pdf_parser_json_printing.py:93-113 | handling a word start keeps the variables tracking the runs of all word starts so far |
| WordRuns.StartRun | utils/pdf_parser_json_printing.py:94-113 | a changed detail closes the open run and opens a new one, keeping the tracking |
| WordRuns.Finish | utils/pdf_parser_json_printing.py:116-123 | word_formats is the first-seen deduplication of the details, and the dictionary that of the alternating runs |
| WordRuns.SegmentLine | utils/pdf_parser_json_printing.py:81-113 | after a text line the variables track the word starts before plus the line's |
| WordRuns.ScanCharacter | utils/pdf_parser_json_printing.py:85-113 | one character advances the scan as the specification of the line |
| WordRuns.ExtractTextRuns | utils/pdf_parser_json_printing.py:72-130 | extract_text returns the deduplicated word-start details and the subheader/content dictionary of the alternating runs |
| JsonPrinting.BoxDict | utils/pdf_parser_json_printing.py:72-130 | the dictionary extract_text returns for a box; WordRuns.ExtractTextRuns equals it, JsonPrinting.BoxDictDistinct states it repeats no key |
| JsonPrinting.BoxDictDistinct | utils/pdf_parser_json_printing.py:78-123 | an element's dictionary has no repeated key |
| PyDict.Get | utils/pdf_parser_json_printing.py:299 | a lookup finds a value exactly when the key is present |
| PyDict.Put | utils/pdf_parser.py:243 | d[k] = v on an insertion-ordered dictionary; stated by PyDict.PutKeys, PyDict.PutNew, PyDict.PutOther and PyDict.PutDistinct |
| PyDict.PutKeys | utils/pdf_parser.py:243 | assignment keeps the key order, appending a new key at the end, and the key then holds the new value |
| PyDict.PutNew | utils/pdf_parser.py:243 | assigning a new key appends one entry |
| PyDict.PutOther | utils/pdf_parser.py:243 | assignment leaves every other key's value |
| PyDict.PutDistinct | utils/pdf_parser.py:243 | assignment never repeats a key |
| PyDict.UpdateGet | utils/pdf_parser_json_printing.py:282 | after update() a key has the new dictionary's value if it has one, its old value otherwise |
| PyDict.Update | utils/pdf_parser_json_printing.py:282 | dict.update; stated by PyDict.UpdateGet |
| JsonPrinting.Merged | utils/pdf_parser_json_printing.py:279-282 | page_content["subheading"] after the elements, merged with update(); stated by JsonPrinting.MergedLastWins |
| JsonPrinting.PrintedPage | utils/pdf_parser_json_printing.py:261-285 | the page dictionary promised; JsonPrinting.ProcessPage equals it |
| JsonPrinting.MergedLastWins | utils/pdf_parser_json_printing.py:279-282 | a subheader keeps the content of the last text element that has it; one in no element is absent |
| JsonPrinting.ProcessPage | utils/pdf_parser_json_printing.py:261-285 | the page's merged dictionary, figure texts and table renderings |
| JsonPrinting.ExtractDocument | utils/pdf_parser_json_printing.py:342-347 | page k's dictionary under "Page_k" |
| JsonPrinting.JsonRecordOf | utils/pdf_parser_json_printing.py:293-308 | the record as written: "Page_" + key as page number, "n" + key as location; JsonPrinting.StructurePdfData and JsonPrinting.DoubledPageNumber are its lemmas |
| JsonPrinting.StructurePdfData | utils/pdf_parser_json_printing.py:289-311 | one record per entry, as written: "Page_" + key as page number, "n" + key as location, the dictionary as subheader |
| JsonPrinting.DoubledPageNumber | utils/pdf_parser_json_printing.py:298-306 | on the keys main stores, page 0's record says "Page_Page_0" and "nPage_0" |
| JsonPrinting.StructureKeyedPdfData | utils/pdf_parser_json_printing.py:289-311 | the corrected records: the key itself as page number and location |
| JsonPrinting.KeyedPageNumbers | utils/pdf_parser_json_printing.py:298-306 | with the corrected records, page k is labelled "Page_k", carries page k's dictionary, and different pages get different labels |
| ModifyJson.Chunks | app/elastic/debug_outputs/modify_json.py:9 | empty exactly for the empty string; ceil(len / 50) chunks, each of 1 to 50 characters, all but the last exactly 50 |
| ModifyJson.ChunksUnfold | app/elastic/debug_outputs/modify_json.py:9 | past 50 characters the chunks are the first 50 followed by the chunks of the rest |
| ModifyJson.ChunksConcat | app/elastic/debug_outputs/modify_json.py:9 | joining the chunks gives back the subheader |
| ModifyJson.Placeholders | app/elastic/debug_outputs/modify_json.py:12 | the placeholder comprehension; stated by ModifyJson.PlaceholderChunks |
| ModifyJson.PlaceholderChunks | app/elastic/debug_outputs/modify_json.py:12 | a chunk becomes "N/A" exactly when it is whitespace only; the others stay in place |
| PyStr.Strip | app/elastic/debug_outputs/modify_json.py:12 | s.strip(); stated by PyStr.StripEmptyIffBlank and PyStr.StripSpaceTerminated |
| PyStr.StripEmptyIffBlank | app/elastic/debug_outputs/modify_json.py:12 | strip() is empty exactly for a whitespace-only string |
| ModifyJson.NoBlankChunkKeepsText | app/elastic/debug_outputs/modify_json.py:9-12 | without whitespace-only chunks the new list joins back to the old subheader |
| ModifyJson.SplitValue | app/elastic/debug_outputs/modify_json.py:8-12 | a string, an empty list or an empty object gives a list; a non-empty list gives AttributeError; anything else TypeError |
| ModifyJson.SplitDocument | app/elastic/debug_outputs/modify_json.py:7-14 | TypeError on a non-object, KeyError without a subheader; otherwise the same keys in the same order |
| ModifyJson.SplitDocumentFields | app/elastic/debug_outputs/modify_json.py:14 | only the subheader changes, into the split list |
| ModifyJson.SplitStringSubheader | app/elastic/debug_outputs/modify_json.py:9-14 | a string subheader becomes ceil(n / 50) strings, the chunks with whitespace-only ones as "N/A" |
| ModifyJson.SplitData | app/elastic/debug_outputs/modify_json.py:7-14 | the whole loop over the parsed file; ModifyJson.SplitSubheader equals it, ModifyJson.SplitDataCases states its cases |
| ModifyJson.SplitDataCases | app/elastic/debug_outputs/modify_json.py:7-14 | a list succeeds exactly when every document does, then holds the split documents in order, else fails with the first failing document's exception; an empty object or string passes unchanged; any other value is a TypeError |
| ModifyJson.SplitSubheader | app/elastic/debug_outputs/modify_json.py:7-14 | each document is replaced in place, in order, and the first exception ends the run |
| ResultSeqs.MapAllStep | app/elastic/debug_outputs/modify_json.py:7-14 | one more successful item extends the results by its own |
| ResultSeqs.MapAllOk | app/elastic/debug_outputs/modify_json.py:7-14 | the loop succeeds exactly when every item does |
| ResultSeqs.MapAllValues | app/elastic/debug_outputs/modify_json.py:7-14 | on success, result k is item k's |
| ResultSeqs.MapAllFirstError | app/elastic/debug_outputs/modify_json.py:7-14 | on failure, the exception is that of the first failing item |
| ResultSeqs.MapAllFailureStays | app/elastic/debug_outputs/modify_json.py:7-14 | after a failure, later items change nothing |
| Semantic.ItemTexts | app/elastic/semantic.py:62-66 | AttributeError on a non-object or a non-object subheader; no subheader gives nothing; otherwise the kept values |
| Semantic.Kept | app/elastic/semantic.py:65-66 | what one subheader value contributes; stated by Semantic.KeptSound and Semantic.KeptComplete |
| Semantic.KeptSound | app/elastic/semantic.py:65-66 | only non-blank string values are kept, each unstripped |
| Semantic.KeptComplete | app/elastic/semantic.py:65-66 | every non-blank string value is kept |
| Semantic.KeptAppend | app/elastic/semantic.py:64-66 | earlier entries' values come first |
| Semantic.Flatten | app/elastic/semantic.py:62-66 | the records' texts one after another; stated by Semantic.FlattenMember |
| Semantic.FlattenMember | app/elastic/semantic.py:62-66 | a text is collected exactly when some record contributes it |
| Semantic.Loaded | app/elastic/semantic.py:57-67 | load_data's result; Semantic.LoadData equals it, Semantic.LoadedCases, Semantic.LoadedOrder, Semantic.LoadedOrigin and Semantic.LoadedComplete state its properties |
| Semantic.LoadedCases | app/elastic/semantic.py:62-66 | a list succeeds exactly when every record does, else fails with the first bad record's exception; a non-empty object or string is an AttributeError, any other non-list a TypeError; empty ones give nothing |
| Semantic.LoadedOrder | app/elastic/semantic.py:62-66 | texts come in record order, then key order |
| Semantic.LoadedOrigin | app/elastic/semantic.py:62-66 | every collected text is a non-blank string value of some record's subheader |
| Semantic.LoadedComplete | app/elastic/semantic.py:62-66 | every non-blank string value of every record's subheader is collected |
| Semantic.CollectItem | app/elastic/semantic.py:63-66 | one record's values are appended, or its exception returned |
| Semantic.LoadData | app/elastic/semantic.py:57-67 | the loop yields the collected texts as specified, or the exception of the first bad record |

## Left out

- Reading the PDF and the layout analysis. Each page is given as its
  elements, its height and its tables' bottoms and grids.
- Cropping, rasterising and recognising figures. The recogniser is a
  parameter from element to text, given per page.
- Finding and extracting tables with pdfplumber. The grids of the cells are
  inputs.
- PageRecords.ProcessTables assumes that extract_table_from_pdf returns a grid. It is
  called with the open pdfplumber document instead of a path, in
  utils/pdf_parser_fixed_dist.py:314, utils/pdf_parser_cluster_model.py:350
  and utils/pdf_parser_json_printing.py:254. initialize_pdf hands that object
  to pdfplumber.open again, which would read it as a file stream, so every
  page with a table presumably fails there (not executed). The model of
  process_page in these three scripts never fails at this call.
- k-means fitting and prediction. The labels of the fitted points and the
  predictor are parameters.
- `np.mean` is modelled on reals. `np.percentile` and `np.std` are not
  modelled: the median and IQR are parameters. Sizes are taken as already
  rounded, and floating point is real arithmetic.
- `visualize_clusters`, debug printing, and the writes to
  `extracted_data.txt`: these are user interface and file I/O.
- Saving JSON, saving and printing text, and deleting temporary files: file
  I/O.
- The dead first loop of `utils/pdf_parser.py`.
- `calculate_mean_and_std_dev`: numpy statistics only.
- `gather_all_font_data` of `utils/pdf_parser_json_printing.py`. It extends a
  list with dictionary keys, and main never uses the result.
- `json.load` and `json.dump`. The transforms start from a parsed value.
  Numbers are kept abstract.
- The rest of `app/elastic/semantic.py` (embedding client, index, Flask
  route), `elastic/semantic.py`, `llama.py` and `app/app.py`: network
  clients and web endpoints.
- FontFeatures.TextExtraction fixes the order of `list(set(...))` as
  first-seen. Python leaves that order arbitrary. The contract states only
  the set and the absence of duplicates, plus the model's own fixed order.
- ModifyJson.SplitValue treats the slice of a non-empty dictionary as a
  TypeError (an unhashable slice). That holds before Python 3.12; from 3.12
  on, the lookup raises KeyError instead. The slices of a non-empty list are
  lists, whose missing strip() is the AttributeError.
- Some helper methods do their own pass of a source loop body:
  TableSequencer.ProcessElement, TableSequencer.ExtractPage,
  ClusterPolicy.ExtractPage, Semantic.CollectItem, WordRuns.AtWordStart,
  WordRuns.StartRun, WordRuns.ScanCharacter, WordRuns.SegmentLine and
  FontFeatures.AddLineFormats. They are the source's inner loops and loop
  bodies, split out so that each proof stays small. They add no behaviour.

## Findings

| source | as written | input that shows it | evidently intended | confidence | as-written member | corrected member |
|---|---|---|---|---|---|---|
| utils/pdf_parser_json_printing.py:298-306 | the record's page number is f"Page_{page_num}" and its location f"n{page_num}". The keys main stores at line 347 already read "Page_<n>" | any document with one page: its record says "Page_Page_0" and "nPage_0" | the key itself as page number and location ("Page_0"), as the other two scripts' structure_pdf_data write it | not executed | JsonPrinting.StructurePdfData, JsonPrinting.DoubledPageNumber | JsonPrinting.StructureKeyedPdfData, JsonPrinting.KeyedPageNumbers |
