/** The text collection of the search service: from the parsed record list,
    every subheader value that is a string with something besides
    whitespace, as it is, in record order and then in key order. The
    embedding client, the search index and the web route are left out. */
module Semantic {
  import opened Wrappers
  import opened Seqs
  import opened PyStr
  import opened PyDict
  import opened JsonValue
  import opened ResultSeqs

  /** What one subheader value contributes: itself when it is a string with
      something besides whitespace, nothing otherwise. */
  function Kept(v: Json): seq<string> {
    if v.JStr? && Strip(v.s) != "" then [v.s] else []
  }

  /** The subheader values kept from one record, in key order. */
  function KeptTexts(subheaders: Dict<string, Json>): seq<string> {
    if subheaders == [] then []
    else KeptTexts(subheaders[..|subheaders| - 1]) + Kept(subheaders[|subheaders| - 1].1)
  }

  /** Only non-blank string values are kept, each as it is. */
  lemma {:induction false} KeptSound(subheaders: Dict<string, Json>)
    ensures forall k :: 0 <= k < |KeptTexts(subheaders)| ==> Strip(KeptTexts(subheaders)[k]) != ""
    ensures forall k :: 0 <= k < |KeptTexts(subheaders)| ==>
      exists i :: 0 <= i < |subheaders| && subheaders[i].1 == JStr(KeptTexts(subheaders)[k])
  {
    if subheaders != [] {
      var init := subheaders[..|subheaders| - 1];
      var n := |subheaders| - 1;
      KeptSound(init);
      var r := KeptTexts(subheaders);
      var v := subheaders[n].1;
      assert r == KeptTexts(init) + Kept(v);
      forall k | 0 <= k < |KeptTexts(subheaders)|
        ensures exists i :: 0 <= i < |subheaders| && subheaders[i].1 == JStr(KeptTexts(subheaders)[k])
      {
        if k < |KeptTexts(init)| {
          var i :| 0 <= i < |init| && init[i].1 == JStr(KeptTexts(init)[k]);
          assert subheaders[i] == init[i];
          assert KeptTexts(subheaders)[k] == KeptTexts(init)[k];
          assert subheaders[i].1 == JStr(KeptTexts(subheaders)[k]);
        } else {
          assert subheaders[n].1 == JStr(KeptTexts(subheaders)[k]);
        }
      }
    } else {
      assert KeptTexts(subheaders) == [];
    }
  }

  lemma KeptSnoc(entries: Dict<string, Json>, j: nat)
    requires j < |entries|
    ensures KeptTexts(entries[..j + 1]) == KeptTexts(entries[..j]) + Kept(entries[j].1)
  {
    TakeTake(entries, j);
  }

  /** Every string value that is not blank is kept. */
  lemma {:induction false} KeptComplete(subheaders: Dict<string, Json>, i: nat, t: string)
    requires i < |subheaders| && subheaders[i].1 == JStr(t) && Strip(t) != ""
    ensures t in KeptTexts(subheaders)
  {
    var init := subheaders[..|subheaders| - 1];
    if i < |init| {
      assert init[i] == subheaders[i];
      KeptComplete(init, i, t);
    }
  }

  /** The values of earlier entries come before those of later ones. */
  lemma {:induction false} KeptAppend(a: Dict<string, Json>, b: Dict<string, Json>)
    ensures KeptTexts(a + b) == KeptTexts(a) + KeptTexts(b)
  {
    if b != [] {
      var init := b[..|b| - 1];
      assert (a + b)[..|a + b| - 1] == a + init;
      KeptAppend(a, init);
    } else {
      assert a + b == a;
    }
  }

  /** item.get("subheader", {}), as the entries it iterates over when it is
      a dictionary. */
  function SubheadersOf(item: Json): Dict<string, Json> {
    if item.JObj? then
      var v := Get(item.fields, "subheader");
      if v.Some? && v.value.JObj? then v.value.fields else []
    else []
  }

  /** One record: get() is missing on anything but a dictionary, and items()
      on a subheader value that is not one; a record without a subheader
      contributes nothing. */
  function ItemTexts(item: Json): (r: Result<seq<string>, PyException>)
    ensures r.Err? <==> !item.JObj? || (Get(item.fields, "subheader").Some? && !Get(item.fields, "subheader").value.JObj?)
    ensures r.Err? ==> r.error == AttributeError
    ensures item.JObj? && "subheader" !in Keys(item.fields) ==> r == Ok([])
    ensures r.Ok? ==> r.value == KeptTexts(SubheadersOf(item))
  {
    match item
    case JObj(fields) =>
      (match Get(fields, "subheader")
       case None => Ok([])
       case Some(v) => if v.JObj? then Ok(KeptTexts(v.fields)) else Err(AttributeError))
    case _ => Err(AttributeError)
  }

  function Flatten(tss: seq<seq<string>>): seq<string> {
    if tss == [] then [] else Flatten(tss[..|tss| - 1]) + tss[|tss| - 1]
  }

  lemma FlattenSnoc(tss: seq<seq<string>>, ts: seq<string>)
    ensures Flatten(tss + [ts]) == Flatten(tss) + ts
  {
    assert (tss + [ts])[..|tss|] == tss;
  }

  /** A string is in the flattened list exactly when it is in one of the
      lists. */
  lemma {:induction false} FlattenMember(tss: seq<seq<string>>, t: string)
    ensures t in Flatten(tss) <==> exists k :: 0 <= k < |tss| && t in tss[k]
  {
    if tss != [] {
      var init := tss[..|tss| - 1];
      FlattenMember(init, t);
      assert forall k :: 0 <= k < |init| ==> init[k] == tss[k];
    }
  }

  /** load_data on the parsed file: `for item in data` walks a list; on a
      dictionary or a string it walks keys or characters, which have no
      get(); other values are not iterable. */
  function Loaded(data: Json): Result<seq<string>, PyException> {
    match data
    case JArr(items) =>
      (match MapAll(ItemTexts, items)
       case Ok(tss) => Ok(Flatten(tss))
       case Err(e) => Err(e))
    case JObj(fields) => if fields == [] then Ok([]) else Err(AttributeError)
    case JStr(s) => if s == "" then Ok([]) else Err(AttributeError)
    case _ => Err(TypeError)
  }

  /** The file as a whole: a list succeeds exactly when every record does,
      and otherwise fails with the first bad record's exception; a non-empty
      object or string is walked by keys or characters, which have no get();
      empty ones give nothing; every other value is not iterable. */
  lemma LoadedCases(data: Json)
    ensures data.JArr? ==>
      (Loaded(data).Ok? <==> forall k :: 0 <= k < |data.items| ==> ItemTexts(data.items[k]).Ok?)
    ensures data.JArr? && Loaded(data).Err? ==>
      exists k :: 0 <= k < |data.items| && ItemTexts(data.items[k]) == Err(Loaded(data).error)
        && forall j :: 0 <= j < k ==> ItemTexts(data.items[j]).Ok?
    ensures !data.JArr? ==> (Loaded(data).Ok? <==> data == JObj([]) || data == JStr(""))
    ensures !data.JArr? && Loaded(data).Ok? ==> Loaded(data).value == []
    ensures !data.JArr? && Loaded(data).Err? ==>
      Loaded(data).error == if data.JObj? || data.JStr? then AttributeError else TypeError
  {
    if data.JArr? {
      MapAllOk(ItemTexts, data.items);
      if MapAll(ItemTexts, data.items).Err? {
        MapAllFirstError(ItemTexts, data.items);
      }
    }
  }

  /** Records contribute in list order, each with its values in key order. */
  lemma LoadedOrder(items: seq<Json>)
    requires Loaded(JArr(items)).Ok?
    ensures Loaded(JArr(items)).value == Flatten(seq(|items|, k requires 0 <= k < |items| => KeptTexts(SubheadersOf(items[k]))))
  {
    MapAllValues(ItemTexts, items);
    assert MapAll(ItemTexts, items).value == seq(|items|, k requires 0 <= k < |items| => KeptTexts(SubheadersOf(items[k])));
  }

  /** Every collected text is a non-blank string value of some record's
      subheader, kept as it is. */
  lemma LoadedOrigin(items: seq<Json>, t: string)
    requires Loaded(JArr(items)).Ok? && t in Loaded(JArr(items)).value
    ensures Strip(t) != ""
    ensures exists k, i :: 0 <= k < |items| && 0 <= i < |SubheadersOf(items[k])| && SubheadersOf(items[k])[i].1 == JStr(t)
  {
    var tss := MapAll(ItemTexts, items).value;
    MapAllValues(ItemTexts, items);
    FlattenMember(tss, t);
    var k :| 0 <= k < |tss| && t in tss[k];
    var j :| 0 <= j < |tss[k]| && tss[k][j] == t;
    assert tss[k] == KeptTexts(SubheadersOf(items[k]));
    KeptSound(SubheadersOf(items[k]));
  }

  /** Every non-blank string value of every record's subheader is collected. */
  lemma LoadedComplete(items: seq<Json>, k: nat, i: nat, t: string)
    requires Loaded(JArr(items)).Ok?
    requires k < |items| && i < |SubheadersOf(items[k])|
    requires SubheadersOf(items[k])[i].1 == JStr(t) && Strip(t) != ""
    ensures t in Loaded(JArr(items)).value
  {
    var tss := MapAll(ItemTexts, items).value;
    MapAllValues(ItemTexts, items);
    KeptComplete(SubheadersOf(items[k]), i, t);
    assert t in tss[k];
    FlattenMember(tss, t);
  }

  /** The body of load_data's record loop: the record's kept texts are
      appended to those collected so far, or the record's exception ends the
      run. */
  method CollectItem(texts: seq<string>, item: Json) returns (r: Result<seq<string>, PyException>)
    ensures ItemTexts(item).Ok? ==> r == Ok(texts + ItemTexts(item).value)
    ensures ItemTexts(item).Err? ==> r == Err(ItemTexts(item).error)
  {
    if !item.JObj? {
      return Err(AttributeError);
    }
    var subheaders := Get(item.fields, "subheader");
    var entries: Dict<string, Json>;
    if subheaders.None? {
      entries := [];
    } else if subheaders.value.JObj? {
      entries := subheaders.value.fields;
    } else {
      return Err(AttributeError);
    }
    var collected := texts;
    var j := 0;
    assert entries[..0] == [];
    while j < |entries|
      invariant 0 <= j <= |entries|
      invariant collected == texts + KeptTexts(entries[..j])
    {
      var (_, subheaderContent) := entries[j];
      KeptSnoc(entries, j);
      AppendAssoc(texts, KeptTexts(entries[..j]), Kept(subheaderContent));
      if subheaderContent.JStr? && Strip(subheaderContent.s) != "" {
        collected := collected + [subheaderContent.s];
      } else {
        AppendNil(collected);
      }
      j := j + 1;
    }
    TakeAll(entries, j);
    assert entries == SubheadersOf(item);
    return Ok(collected);
  }

  /** load_data's loop over the records. */
  method LoadData(data: Json) returns (r: Result<seq<string>, PyException>)
    ensures r == Loaded(data)
  {
    if !data.JArr? {
      if data.JObj? || data.JStr? {
        if (data.JObj? && data.fields == []) || (data.JStr? && data.s == "") {
          return Ok([]);
        }
        return Err(AttributeError);
      }
      return Err(TypeError);
    }
    var texts: seq<string> := [];
    ghost var done: seq<seq<string>> := [];
    var i := 0;
    assert data.items[..0] == [];
    while i < |data.items|
      invariant 0 <= i <= |data.items|
      invariant MapAll(ItemTexts, data.items[..i]) == Ok(done)
      invariant texts == Flatten(done)
    {
      var item := data.items[i];
      MapAllStep(ItemTexts, data.items, i);
      var step := CollectItem(texts, item);
      if step.Err? {
        return Err(step.error);
      }
      FlattenSnoc(done, ItemTexts(item).value);
      texts := step.value;
      done := done + [ItemTexts(item).value];
      i := i + 1;
    }
    TakeAll(data.items, i);
    return Ok(texts);
  }
}
