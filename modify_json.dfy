/** The debugging script that splits every document's subheader string into
    chunks of at most fifty characters, writing "N/A" for a chunk that is
    only whitespace; the reading and writing of the files is left out. */
module ModifyJson {
  import opened Wrappers
  import opened Seqs
  import opened PyStr
  import opened PyDict
  import opened JsonValue
  import opened ResultSeqs

  const ChunkSize: nat := 50

  /** Where the chunk starting at 50 * k stops: fifty characters later, or
      at the end of the string. */
  function ChunkEnd(s: string, k: nat): nat {
    if ChunkSize * k + ChunkSize <= |s| then ChunkSize * k + ChunkSize else |s|
  }

  /** [s[i:i+50] for i in range(0, len(s), 50)] */
  function Chunks(s: string): (r: seq<string>)
    ensures s == [] <==> r == []
    ensures ChunkSize * |r| - ChunkSize < |s| <= ChunkSize * |r|
    ensures forall k :: 0 <= k < |r| ==> 0 < |r[k]| <= ChunkSize
    ensures forall k :: 0 <= k < |r| - 1 ==> |r[k]| == ChunkSize
  {
    seq((|s| + ChunkSize - 1) / ChunkSize, k requires 0 <= k < (|s| + ChunkSize - 1) / ChunkSize =>
      s[ChunkSize * k .. ChunkEnd(s, k)])
  }

  /** Past the first fifty characters, the chunks of s are its first fifty
      characters followed by the chunks of the rest. */
  lemma ChunksUnfold(s: string)
    requires |s| > ChunkSize
    ensures Chunks(s) == [s[..ChunkSize]] + Chunks(s[ChunkSize..])
  {
    var t := s[ChunkSize..];
    var r := [s[..ChunkSize]] + Chunks(t);
    assert |Chunks(s)| == |r|;
    forall k | 0 < k < |r|
      ensures Chunks(s)[k] == r[k]
    {
      assert r[k] == Chunks(t)[k - 1];
      assert ChunkEnd(s, k) == ChunkSize + ChunkEnd(t, k - 1);
    }
  }

  /** Joining the chunks gives back the subheader. */
  lemma {:induction false} ChunksConcat(s: string)
    ensures Concat(Chunks(s)) == s
    decreases |s|
  {
    if |s| > ChunkSize {
      ChunksUnfold(s);
      var r := [s[..ChunkSize]] + Chunks(s[ChunkSize..]);
      assert r[1..] == Chunks(s[ChunkSize..]);
      ChunksConcat(s[ChunkSize..]);
      assert s == s[..ChunkSize] + s[ChunkSize..];
    } else if s != [] {
      assert (|s| + ChunkSize - 1) / ChunkSize == 1;
      assert Chunks(s)[0] == s[..ChunkEnd(s, 0)] == s;
      assert Chunks(s) == [s];
      assert Concat([s]) == s + Concat([]);
    }
  }

  /** ["N/A" if not c.strip() else c for c in chunks] */
  function Placeholders(chunks: seq<string>): seq<string> {
    seq(|chunks|, k requires 0 <= k < |chunks| => if Strip(chunks[k]) == "" then "N/A" else chunks[k])
  }

  /** A chunk is replaced by "N/A" exactly when it consists of whitespace;
      every other chunk stays, in its position. */
  lemma PlaceholderChunks(s: string)
    ensures |Placeholders(Chunks(s))| == |Chunks(s)|
    ensures forall k :: 0 <= k < |Chunks(s)| ==>
      Placeholders(Chunks(s))[k] == if IsBlank(Chunks(s)[k]) then "N/A" else Chunks(s)[k]
  {
    forall k | 0 <= k < |Chunks(s)|
      ensures Placeholders(Chunks(s))[k] == if IsBlank(Chunks(s)[k]) then "N/A" else Chunks(s)[k]
    {
      StripEmptyIffBlank(Chunks(s)[k]);
    }
  }

  /** When no chunk is whitespace only, the new subheader list still joins
      back to the old subheader. */
  lemma NoBlankChunkKeepsText(s: string)
    requires forall k :: 0 <= k < |Chunks(s)| ==> !IsBlank(Chunks(s)[k])
    ensures Concat(Placeholders(Chunks(s))) == s
  {
    PlaceholderChunks(s);
    assert Placeholders(Chunks(s)) == Chunks(s);
    ChunksConcat(s);
  }

  function Strings(xs: seq<string>): seq<Json> {
    seq(|xs|, k requires 0 <= k < |xs| => JStr(xs[k]))
  }

  /** The new value of document['subheader'], from the old one. len() and
      slicing work on strings, lists and dictionaries; slicing the chunks of
      a list gives lists, on which strip() is missing; slicing a non-empty
      dictionary is a TypeError; an empty list or dictionary has no chunks;
      len() of null, a number or a boolean is a TypeError. */
  function SplitValue(v: Json): (r: Result<Json, PyException>)
    ensures r.Ok? <==> v.JStr? || v == JArr([]) || v == JObj([])
    ensures r.Err? ==> (r.error == AttributeError <==> v.JArr?)
    ensures r.Err? ==> r.error == AttributeError || r.error == TypeError
    ensures r.Ok? ==> r.value.JArr? && (r.value.items == [] <==> (v.JStr? ==> v.s == ""))
  {
    match v
    case JStr(s) => Ok(JArr(Strings(Placeholders(Chunks(s)))))
    case JArr(items) => if items == [] then Ok(JArr([])) else Err(AttributeError)
    case JObj(fields) => if fields == [] then Ok(JArr([])) else Err(TypeError)
    case _ => Err(TypeError)
  }

  /** One pass of the loop body on a document: document['subheader'] is read
      (a TypeError on anything but an object, a KeyError when it is missing)
      and replaced by the split list. */
  function SplitDocument(doc: Json): (r: Result<Json, PyException>)
    ensures !doc.JObj? ==> r == Err(TypeError)
    ensures doc.JObj? && "subheader" !in Keys(doc.fields) ==> r == Err(KeyError)
    ensures r.Ok? ==> doc.JObj? && r.value.JObj? && Keys(r.value.fields) == Keys(doc.fields)
  {
    match doc
    case JObj(fields) =>
      (match Get(fields, "subheader")
       case None => Err(KeyError)
       case Some(v) =>
         (match SplitValue(v)
          case Err(e) => Err(e)
          case Ok(w) => PutKeys(fields, "subheader", w); Ok(JObj(Put(fields, "subheader", w)))))
    case _ => Err(TypeError)
  }

  /** Only the subheader of a document changes: every other field keeps its
      value, and the subheader becomes the list of split chunks. */
  lemma SplitDocumentFields(doc: Json, key: string)
    requires SplitDocument(doc).Ok?
    ensures key != "subheader" ==> Get(SplitDocument(doc).value.fields, key) == Get(doc.fields, key)
    ensures Get(SplitDocument(doc).value.fields, "subheader") == Some(SplitValue(Get(doc.fields, "subheader").value).value)
  {
    PutKeys(doc.fields, "subheader", SplitValue(Get(doc.fields, "subheader").value).value);
    if key != "subheader" {
      PutOther(doc.fields, "subheader", SplitValue(Get(doc.fields, "subheader").value).value, key);
    }
  }

  /** A string subheader of n characters becomes ceil(n / 50) strings: the
      chunks, with whitespace-only chunks written as "N/A". */
  lemma SplitStringSubheader(doc: Json, s: string)
    requires doc.JObj? && Get(doc.fields, "subheader") == Some(JStr(s))
    ensures SplitDocument(doc).Ok?
    ensures Get(SplitDocument(doc).value.fields, "subheader") == Some(JArr(Strings(Placeholders(Chunks(s)))))
    ensures |Placeholders(Chunks(s))| == (|s| + ChunkSize - 1) / ChunkSize
  {
    SplitDocumentFields(doc, "subheader");
  }

  /** The whole file: `for document in data` walks a list; on an object or a
      string it walks keys or characters, where ['subheader'] is a TypeError
      unless there is none; other values are not iterable. */
  function SplitData(data: Json): Result<Json, PyException> {
    match data
    case JArr(docs) =>
      (match MapAll(SplitDocument, docs)
       case Ok(ds) => Ok(JArr(ds))
       case Err(e) => Err(e))
    case JObj(fields) => if fields == [] then Ok(data) else Err(TypeError)
    case JStr(s) => if s == "" then Ok(data) else Err(TypeError)
    case _ => Err(TypeError)
  }

  /** The file as a whole: a list succeeds exactly when every document does
      and then holds the split documents in order, and otherwise fails with
      the first failing document's exception; an empty object or string
      passes unchanged; every other value is a TypeError. */
  lemma SplitDataCases(data: Json)
    ensures data.JArr? ==>
      (SplitData(data).Ok? <==> forall k :: 0 <= k < |data.items| ==> SplitDocument(data.items[k]).Ok?)
    ensures data.JArr? && SplitData(data).Ok? ==>
      && SplitData(data).value.JArr?
      && |SplitData(data).value.items| == |data.items|
      && forall k :: 0 <= k < |data.items| ==> SplitData(data).value.items[k] == SplitDocument(data.items[k]).value
    ensures data.JArr? && SplitData(data).Err? ==>
      exists k :: 0 <= k < |data.items| && SplitDocument(data.items[k]) == Err(SplitData(data).error)
        && forall j :: 0 <= j < k ==> SplitDocument(data.items[j]).Ok?
    ensures !data.JArr? ==> (SplitData(data).Ok? <==> data == JObj([]) || data == JStr(""))
    ensures !data.JArr? && SplitData(data).Ok? ==> SplitData(data).value == data
    ensures !data.JArr? && SplitData(data).Err? ==> SplitData(data).error == TypeError
  {
    if data.JArr? {
      MapAllOk(SplitDocument, data.items);
      if MapAll(SplitDocument, data.items).Ok? {
        MapAllValues(SplitDocument, data.items);
      } else {
        MapAllFirstError(SplitDocument, data.items);
      }
    }
  }

  /** split_subheader on the parsed file: each document is updated in place,
      in list order, and the first exception ends the run. */
  method SplitSubheader(data: Json) returns (r: Result<Json, PyException>)
    ensures r == SplitData(data)
  {
    if !data.JArr? {
      if (data.JObj? && data.fields == []) || (data.JStr? && data.s == "") {
        return Ok(data);
      }
      return Err(TypeError);
    }
    var docs := data.items;
    var i := 0;
    while i < |docs|
      invariant 0 <= i <= |docs| == |data.items|
      invariant docs[i..] == data.items[i..]
      invariant MapAll(SplitDocument, data.items[..i]) == Ok(docs[..i])
    {
      var document := docs[i];
      assert document == data.items[i];
      MapAllStep(SplitDocument, data.items, i);
      var updated := SplitDocument(document);
      if updated.Err? {
        return Err(updated.error);
      }
      ghost var prefix := docs[..i];
      ghost var suffix := docs[i + 1..];
      assert suffix == data.items[i + 1..] by {
        assert docs[i..][1..] == data.items[i..][1..];
      }
      docs := docs[i := updated.value];
      assert docs[..i + 1] == prefix + [updated.value];
      assert docs[i + 1..] == suffix;
      i := i + 1;
    }
    TakeAll(data.items, i);
    TakeAll(docs, i);
    return Ok(JArr(docs));
  }
}
