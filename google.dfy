/**
 * The Google Custom Search document mapper of greencall/utils/google.py:
 * it turns one decoded search response per search key into Elasticsearch
 * bulk-index envelopes, one "meta" document per response and one document
 * per search result, each carrying the account holder and number of the key.
 */
module Google {
  import opened PyJson

  // ---------------------------------------------------------------------
  // Documents
  // ---------------------------------------------------------------------

  /** The meta document, its fields in the order the source first inserts them. */
  datatype MetaDoc = MetaDoc(
    accountHolder: Json,
    accountNumber: Json,
    kind: Json,
    template: Json,
    title: Json,
    totalResults: Json,
    searchTerms: Json,
    count: Json,
    language: Json,
    inputEncoding: Json,
    outputEncoding: Json,
    safe: Json,
    cx: Json,
    filter: Json,
    exactTerms: Json,
    dateRestrict: Json,
    searchTime: Json,
    formattedSearchTime: Json)

  /** The document for one search result. */
  datatype ResultDoc = ResultDoc(
    accountHolder: Json,
    accountNumber: Json,
    kind: Json,
    cx: Json,
    title: Json,
    link: Json,
    snippet: Json)

  /** The subscript chain `['queries']['request'][0]`. */
  const Request0: seq<Step> := [Field("queries"), Field("request"), Index(0)]

  /** The subscript chain `['searchInformation']`. */
  const SearchInfo: seq<Step> := [Field("searchInformation")]

  /** One chain per name: `prefix` followed by `[name]`. */
  function UnderPrefix(prefix: seq<Step>, names: seq<string>): seq<seq<Step>>
  {
    seq(|names|, i requires 0 <= i < |names| => prefix + [Field(names[i])])
  }

  /** The request-level keys `define_meta_es_doc` reads from `request[0]`, in statement order. */
  const RequestNames: seq<string> := [
    "title", "totalResults", "searchTerms", "count", "language", "inputEncoding",
    "outputEncoding", "safe", "cx", "filter", "exactTerms", "dateRestrict"]

  /** The keys it reads from `searchInformation`, in statement order. */
  const SearchInfoNames: seq<string> := ["searchTime", "formattedSearchTime", "totalResults"]

  /**
   * Every subscript chain `define_meta_es_doc` evaluates, in the order of its
   * statements: kind (0), url template (1), the request fields (2 to 13) and
   * the `searchInformation` fields (14 to 16).
   */
  const MetaPaths: seq<seq<Step>> :=
    [[Field("kind")], [Field("url"), Field("template")]]
    + UnderPrefix(Request0, RequestNames)
    + UnderPrefix(SearchInfo, SearchInfoNames)

  /**
   * `define_meta_es_doc`: unpack the account pair, then evaluate the field
   * chains in order; the first one that raises is the exception. The value
   * read from the request's `totalResults` (chain 3) is overwritten by the one
   * under `searchInformation` (chain 16). The URL template is copied as it is.
   */
  function DefineMetaEsDoc(valuedict: Json, metaInfo: Entry): Result<MetaDoc>
  {
    var account :- Unpack2(metaInfo);
    var f :- LookupAll(valuedict, MetaPaths);
    Ok(MetaDoc(account.0, account.1, f[0], f[1], f[2], f[16], f[4], f[5], f[6], f[7],
               f[8], f[9], f[10], f[11], f[12], f[13], f[14], f[15]))
  }

  /** `['items'][index][name]` */
  function ItemField(index: nat, name: string): seq<Step>
  {
    [Field("items"), Index(index), Field(name)]
  }

  /** The chains `define_result_es_doc` evaluates for `items[index]`, in order. */
  function ResultPaths(index: nat): seq<seq<Step>>
  {
    [[Field("kind")],
     Request0 + [Field("cx")],
     ItemField(index, "title"),
     ItemField(index, "link"),
     ItemField(index, "snippet")]
  }

  /**
   * `define_result_es_doc`: the account pair, the response kind, the request's
   * cx and the title, link and snippet of `items[index]`.
   */
  function DefineResultEsDoc(valuedict: Json, metaInfo: Entry, index: nat): Result<ResultDoc>
  {
    var account :- Unpack2(metaInfo);
    var f :- LookupAll(valuedict, ResultPaths(index));
    Ok(ResultDoc(account.0, account.1, f[0], f[1], f[2], f[3], f[4]))
  }

  // ---------------------------------------------------------------------
  // Properties of the two document builders
  // ---------------------------------------------------------------------

  /** `v[prefix][name]` is `v[prefix]` subscripted by `name`. */
  lemma ThroughPrefix(v: Json, prefix: seq<Step>, name: string)
    ensures Lookup(v, prefix + [Field(name)]) ==
      (match Lookup(v, prefix) case Ok(w) => Subscript(w, Field(name)) case Err(x) => Err(x))
  {
    LookupAppend(v, prefix, [Field(name)]);
    if Lookup(v, prefix).Ok? {
      LookupOne(Lookup(v, prefix).value, Field(name));
    }
  }

  /** The k-th request-level value of a meta lookup is `request[0]`'s k-th key. */
  lemma MetaRequestValue(v: Json, k: nat)
    requires LookupAll(v, MetaPaths).Ok? && k < |RequestNames|
    ensures Lookup(v, Request0).Ok?
    ensures Subscript(Lookup(v, Request0).value, Field(RequestNames[k])) == Ok(LookupAll(v, MetaPaths).value[2 + k])
  {
    LookupAllValues(v, MetaPaths);
    assert MetaPaths[2 + k] == Request0 + [Field(RequestNames[k])];
    ThroughPrefix(v, Request0, RequestNames[k]);
  }

  /** The k-th timing value of a meta lookup is `searchInformation`'s k-th key. */
  lemma MetaSearchInfoValue(v: Json, k: nat)
    requires LookupAll(v, MetaPaths).Ok? && k < |SearchInfoNames|
    ensures Lookup(v, SearchInfo).Ok?
    ensures Subscript(Lookup(v, SearchInfo).value, Field(SearchInfoNames[k])) == Ok(LookupAll(v, MetaPaths).value[14 + k])
  {
    LookupAllValues(v, MetaPaths);
    assert MetaPaths[14 + k] == SearchInfo + [Field(SearchInfoNames[k])];
    ThroughPrefix(v, SearchInfo, SearchInfoNames[k]);
  }

  /**
   * A meta document holds the two unpacked account components, the kind and
   * URL template unchanged, every request-level field read from
   * `queries.request[0]`, and the timing fields from `searchInformation`,
   * whose `totalResults` is the one kept although `request[0]` must hold one too.
   */
  lemma MetaDocFields(v: Json, e: Entry)
    requires DefineMetaEsDoc(v, e).Ok?
    ensures var d := DefineMetaEsDoc(v, e).value;
      && e == Iterable([d.accountHolder, d.accountNumber])
      && Lookup(v, [Field("kind")]) == Ok(d.kind)
      && Lookup(v, [Field("url"), Field("template")]) == Ok(d.template)
      && Lookup(v, Request0).Ok?
      && var req := Lookup(v, Request0).value;
      && Subscript(req, Field("totalResults")).Ok?
      && Subscript(req, Field("title")) == Ok(d.title)
      && Subscript(req, Field("searchTerms")) == Ok(d.searchTerms)
      && Subscript(req, Field("count")) == Ok(d.count)
      && Subscript(req, Field("language")) == Ok(d.language)
      && Subscript(req, Field("inputEncoding")) == Ok(d.inputEncoding)
      && Subscript(req, Field("outputEncoding")) == Ok(d.outputEncoding)
      && Subscript(req, Field("safe")) == Ok(d.safe)
      && Subscript(req, Field("cx")) == Ok(d.cx)
      && Subscript(req, Field("filter")) == Ok(d.filter)
      && Subscript(req, Field("exactTerms")) == Ok(d.exactTerms)
      && Subscript(req, Field("dateRestrict")) == Ok(d.dateRestrict)
      && Lookup(v, SearchInfo).Ok?
      && var info := Lookup(v, SearchInfo).value;
      && Subscript(info, Field("searchTime")) == Ok(d.searchTime)
      && Subscript(info, Field("formattedSearchTime")) == Ok(d.formattedSearchTime)
      && Subscript(info, Field("totalResults")) == Ok(d.totalResults)
  {
    assert e.items == [e.items[0], e.items[1]];
    LookupAllValues(v, MetaPaths);
    MetaRequestValue(v, 1);  // request[0] holds a totalResults, later overwritten
    MetaSearchInfoValue(v, 0);
    forall k | 0 <= k < |RequestNames|
      ensures Subscript(Lookup(v, Request0).value, Field(RequestNames[k])) == Ok(LookupAll(v, MetaPaths).value[2 + k])
    {
      MetaRequestValue(v, k);
    }
    forall k | 0 <= k < |SearchInfoNames|
      ensures Subscript(Lookup(v, SearchInfo).value, Field(SearchInfoNames[k])) == Ok(LookupAll(v, MetaPaths).value[14 + k])
    {
      MetaSearchInfoValue(v, k);
    }
  }

  /**
   * The meta document depends on the response only through `kind`,
   * `url.template`, `queries.request[0]` and `searchInformation`: entries of
   * the request list after the first, and any other part of the response,
   * never change it, nor the exception it raises.
   */
  lemma MetaDependsOnlyOnFirstRequest(v: Json, v': Json, e: Entry)
    requires Lookup(v, [Field("kind")]) == Lookup(v', [Field("kind")])
    requires Lookup(v, [Field("url"), Field("template")]) == Lookup(v', [Field("url"), Field("template")])
    requires Lookup(v, Request0) == Lookup(v', Request0)
    requires Lookup(v, SearchInfo) == Lookup(v', SearchInfo)
    ensures DefineMetaEsDoc(v, e) == DefineMetaEsDoc(v', e)
  {
    forall i | 0 <= i < |MetaPaths| ensures Lookup(v, MetaPaths[i]) == Lookup(v', MetaPaths[i]) {
      if 2 <= i < 14 {
        assert MetaPaths[i] == Request0 + [Field(RequestNames[i - 2])];
        LookupThrough(v, v', Request0, [Field(RequestNames[i - 2])]);
      } else if 14 <= i {
        assert MetaPaths[i] == SearchInfo + [Field(SearchInfoNames[i - 14])];
        LookupThrough(v, v', SearchInfo, [Field(SearchInfoNames[i - 14])]);
      }
    }
    LookupAllAgree(v, v', MetaPaths);
  }

  /**
   * With the account pair, `kind` and `url.template` in place, an empty
   * request list raises IndexError.
   */
  lemma EmptyRequestListIsIndexError(v: Json, e: Entry)
    requires Unpack2(e).Ok?
    requires Lookup(v, [Field("kind")]).Ok?
    requires Lookup(v, [Field("url"), Field("template")]).Ok?
    requires Lookup(v, [Field("queries"), Field("request")]) == Ok(Arr([]))
    ensures DefineMetaEsDoc(v, e) == Err(IndexError)
  {
    LookupAppend(v, [Field("queries"), Field("request")], [Index(0), Field("title")]);
    assert [Field("queries"), Field("request")] + [Index(0), Field("title")] == MetaPaths[2];
    LookupAllFirstError(v, MetaPaths, 2);
  }

  /**
   * A result document holds the account pair, the kind, `request[0].cx`,
   * and the title, link and snippet of `items[index]`.
   */
  lemma ResultDocFields(v: Json, e: Entry, index: nat)
    requires DefineResultEsDoc(v, e, index).Ok?
    ensures var d := DefineResultEsDoc(v, e, index).value;
      && e == Iterable([d.accountHolder, d.accountNumber])
      && Lookup(v, [Field("kind")]) == Ok(d.kind)
      && Lookup(v, Request0).Ok?
      && Subscript(Lookup(v, Request0).value, Field("cx")) == Ok(d.cx)
      && Lookup(v, [Field("items"), Index(index)]).Ok?
      && var item := Lookup(v, [Field("items"), Index(index)]).value;
      && Subscript(item, Field("title")) == Ok(d.title)
      && Subscript(item, Field("link")) == Ok(d.link)
      && Subscript(item, Field("snippet")) == Ok(d.snippet)
  {
    assert e.items == [e.items[0], e.items[1]];
    LookupAllValues(v, ResultPaths(index));
    ThroughPrefix(v, Request0, "cx");
    ThroughPrefix(v, [Field("items"), Index(index)], "title");
    ThroughPrefix(v, [Field("items"), Index(index)], "link");
    ThroughPrefix(v, [Field("items"), Index(index)], "snippet");
    assert ItemField(index, "title") == [Field("items"), Index(index)] + [Field("title")];
    assert ItemField(index, "link") == [Field("items"), Index(index)] + [Field("link")];
    assert ItemField(index, "snippet") == [Field("items"), Index(index)] + [Field("snippet")];
  }

  /**
   * With the account pair, `kind` and `request[0].cx` in place, an index at
   * or past the end of the `items` list raises IndexError.
   */
  lemma ResultIndexOutOfRange(v: Json, e: Entry, index: nat, items: seq<Json>)
    requires Unpack2(e).Ok?
    requires Lookup(v, [Field("kind")]).Ok?
    requires Lookup(v, Request0 + [Field("cx")]).Ok?
    requires Lookup(v, [Field("items")]) == Ok(Arr(items))
    requires index >= |items|
    ensures DefineResultEsDoc(v, e, index) == Err(IndexError)
  {
    LookupAppend(v, [Field("items")], [Index(index), Field("title")]);
    assert [Field("items")] + [Index(index), Field("title")] == ItemField(index, "title");
    LookupAllFirstError(v, ResultPaths(index), 2);
  }

  // ---------------------------------------------------------------------
  // parse_google_json: one response, one shared envelope
  // ---------------------------------------------------------------------

  /** What `_source` holds: whatever the caller put there, or a built document. */
  datatype Source = RawSource(value: Json) | MetaSource(meta: MetaDoc) | ResultSource(result: ResultDoc)

  /**
   * The `esformat` dict. It is one object: every emission overwrites its
   * `_id` and `_source` and appends the same reference to the output list.
   */
  class EsFormat {
    var index: Json      // "_index", never written by the mapper
    var docType: Json    // "_type", never written by the mapper
    var id: Json         // "_id"
    var source: Source   // "_source"

    /**
     * The example envelope of the module docstring: `_id` None, `_source` the
     * empty string. The mapper never builds one; its callers pass theirs in.
     */
    constructor (index: Json, docType: Json)
      ensures this.index == index && this.docType == docType
      ensures id == Null && source == RawSource(Str(""))
    {
      this.index := index;
      this.docType := docType;
      id := Null;
      source := RawSource(Str(""));
    }
  }

  /** The `_id` and `_source` the envelope held when it was appended once more. */
  datatype Emission = Emission(id: int, source: Source)

  /**
   * The course of one `parse_google_json` call: every append it made, and,
   * if it raised, the exception and the `_id` it had written last.
   */
  datatype ParseRun =
    | Completed(emitted: seq<Emission>)
    | Aborted(emitted: seq<Emission>, error: PyError, id: int)

  /** The final element. */
  function Last<T>(s: seq<T>): T
    requires |s| > 0
  {
    s[|s| - 1]
  }

  /** `len(valuedict['items'])` */
  function ItemCount(valuedict: Json): Result<nat>
  {
    var items :- Lookup(valuedict, [Field("items")]);
    Len(items)
  }

  /** The document of each of the first `n` items, or the exception building it raises. */
  function ItemDocs(v: Json, e: Entry, n: nat): (docs: seq<Result<ResultDoc>>)
    ensures |docs| == n
    ensures forall i | 0 <= i < n :: docs[i] == DefineResultEsDoc(v, e, i)
  {
    seq(n, i requires 0 <= i < n => DefineResultEsDoc(v, e, i))
  }

  /**
   * The run after the meta emission and the first `n` passes of the while
   * loop, given the item documents `docs`: pass `i` writes
   * `_id = esId + 1 + i` and then builds `docs[i]`, so a failure leaves that
   * `_id` and the previous `_source`.
   */
  function LoopRun(docs: seq<Result<ResultDoc>>, esId: int, meta: MetaDoc, n: nat): (r: ParseRun)
    requires n <= |docs|
    ensures r.Completed? ==> |r.emitted| == n + 1
    ensures r.Aborted? ==> 1 <= |r.emitted| <= n
  {
    if n == 0 then Completed([Emission(esId, MetaSource(meta))])
    else
      match LoopRun(docs, esId, meta, n - 1)
      case Aborted(em, err, id) => Aborted(em, err, id)
      case Completed(em) =>
        match docs[n - 1]
        case Err(err) => Aborted(em, err, esId + n)
        case Ok(d) => Completed(em + [Emission(esId + n, ResultSource(d))])
  }

  /**
   * The whole run: `_id = esId` is written before the meta document is built,
   * then `len(valuedict['items'])` bounds the loop.
   */
  function ParseRunOf(v: Json, e: Entry, esId: int): (r: ParseRun)
    ensures r.Completed? ==> |r.emitted| > 0
  {
    match DefineMetaEsDoc(v, e)
    case Err(err) => Aborted([], err, esId)
    case Ok(meta) =>
      match ItemCount(v)
      case Err(err) => Aborted([Emission(esId, MetaSource(meta))], err, esId)
      case Ok(n) => LoopRun(ItemDocs(v, e, n), esId, meta, n)
  }

  /** Once a pass has raised, later bounds give the same run. */
  lemma {:induction false} LoopAbortStays(docs: seq<Result<ResultDoc>>, esId: int, meta: MetaDoc, k: nat, n: nat)
    requires k <= n <= |docs| && LoopRun(docs, esId, meta, k).Aborted?
    ensures LoopRun(docs, esId, meta, n) == LoopRun(docs, esId, meta, k)
    decreases n
  {
    if n > k {
      LoopAbortStays(docs, esId, meta, k, n - 1);
    }
  }

  /**
   * `parse_google_json`: writes `_id`, builds and writes `_source`, appends
   * the envelope, and repeats for every item. Every element of the returned
   * list is `esformat` itself, so it shows only the last values written.
   */
  method ParseGoogleJson(valuedict: Json, metaInfo: Entry, esformat: EsFormat, esId: int)
    returns (r: Result<seq<EsFormat>>)
    modifies esformat`id, esformat`source
    ensures match ParseRunOf(valuedict, metaInfo, esId)
      case Completed(em) =>
        && |em| > 0
        && r.Ok? && |r.value| == |em| && (forall i | 0 <= i < |r.value| :: r.value[i] == esformat)
        && esformat.id == Int(Last(em).id) && esformat.source == Last(em).source
      case Aborted(em, err, id) =>
        && r == Err(err) && esformat.id == Int(id)
        && esformat.source == (if em == [] then old(esformat.source) else Last(em).source)
  {
    var parsed: seq<EsFormat> := [];
    esformat.id := Int(esId);
    var meta := DefineMetaEsDoc(valuedict, metaInfo);
    if meta.Err? {
      assert ParseRunOf(valuedict, metaInfo, esId) == Aborted([], meta.error, esId);
      return Err(meta.error);
    }
    esformat.source := MetaSource(meta.value);
    parsed := parsed + [esformat];

    var count := ItemCount(valuedict);
    if count.Err? {
      assert ParseRunOf(valuedict, metaInfo, esId) == Aborted([Emission(esId, MetaSource(meta.value))], count.error, esId);
      return Err(count.error);
    }
    ghost var docs := ItemDocs(valuedict, metaInfo, count.value);
    assert ParseRunOf(valuedict, metaInfo, esId) == LoopRun(docs, esId, meta.value, count.value);
    r := AppendItemDocs(valuedict, metaInfo, esformat, esId, meta.value, count.value, docs, parsed);
  }

  /**
   * The while loop of `parse_google_json`, entered with the meta document
   * appended: `count` passes of `AppendItemDoc`, stopping at the first that raises.
   */
  method AppendItemDocs(valuedict: Json, metaInfo: Entry, esformat: EsFormat, esId: int,
                        meta: MetaDoc, count: nat, ghost docs: seq<Result<ResultDoc>>, parsed0: seq<EsFormat>)
    returns (r: Result<seq<EsFormat>>)
    requires |docs| == count && forall i | 0 <= i < count :: docs[i] == DefineResultEsDoc(valuedict, metaInfo, i)
    requires parsed0 == [esformat]
    requires esformat.id == Int(esId) && esformat.source == MetaSource(meta)
    modifies esformat`id, esformat`source
    ensures match LoopRun(docs, esId, meta, count)
      case Completed(em) =>
        && r.Ok? && |r.value| == |em| && (forall i | 0 <= i < |r.value| :: r.value[i] == esformat)
        && esformat.id == Int(Last(em).id) && esformat.source == Last(em).source
      case Aborted(em, err, id) =>
        && r == Err(err) && esformat.id == Int(id) && esformat.source == Last(em).source
  {
    var parsed := parsed0;
    var index := 0;
    while index < count
      invariant 0 <= index <= count
      invariant LoopRun(docs, esId, meta, index).Completed?
      invariant var em := LoopRun(docs, esId, meta, index).emitted;
        && |parsed| == |em| && (forall i | 0 <= i < |parsed| :: parsed[i] == esformat)
        && esformat.id == Int(Last(em).id) && esformat.source == Last(em).source
    {
      var step := AppendItemDoc(valuedict, metaInfo, esformat, esId, meta, index, docs, parsed);
      if step.Err? {
        LoopAbortStays(docs, esId, meta, index + 1, count);
        return step;
      }
      parsed := step.value;
      index := index + 1;
    }
    return Ok(parsed);
  }

  /**
   * One pass of that loop, after `index` passes completed: write `_id`,
   * build the document of `items[index]`, write `_source` and append the
   * envelope once more.
   */
  method AppendItemDoc(valuedict: Json, metaInfo: Entry, esformat: EsFormat, esId: int,
                       meta: MetaDoc, index: nat, ghost docs: seq<Result<ResultDoc>>, parsed: seq<EsFormat>)
    returns (r: Result<seq<EsFormat>>)
    requires index < |docs| && docs[index] == DefineResultEsDoc(valuedict, metaInfo, index)
    requires LoopRun(docs, esId, meta, index).Completed?
    modifies esformat`id, esformat`source
    ensures match LoopRun(docs, esId, meta, index + 1)
      case Completed(em) =>
        && r == Ok(parsed + [esformat])
        && esformat.id == Int(Last(em).id) && esformat.source == Last(em).source
      case Aborted(em, err, id) =>
        && r == Err(err) && esformat.id == Int(id) && esformat.source == old(esformat.source)
  {
    esformat.id := Int(esId + 1 + index);
    var doc := DefineResultEsDoc(valuedict, metaInfo, index);
    if doc.Err? {
      return Err(doc.error);
    }
    esformat.source := ResultSource(doc.value);
    return Ok(parsed + [esformat]);
  }

  // ---------------------------------------------------------------------
  // Properties of a parse run
  // ---------------------------------------------------------------------

  /**
   * After the meta emission, pass `i` appends `_id = esId + i + 1` with the
   * document `docs[i]`; the loop completes exactly when every document can
   * be built, and otherwise stops at the first that cannot, with the `_id`
   * of that pass written.
   */
  lemma {:induction false} LoopRunShape(docs: seq<Result<ResultDoc>>, esId: int, meta: MetaDoc, n: nat)
    requires n <= |docs|
    ensures var r := LoopRun(docs, esId, meta, n);
      && r.emitted[0] == Emission(esId, MetaSource(meta))
      && (forall i | 0 <= i < |r.emitted| - 1 ::
            docs[i].Ok? && r.emitted[i + 1] == Emission(esId + i + 1, ResultSource(docs[i].value)))
      && (r.Completed? <==> forall i | 0 <= i < n :: docs[i].Ok?)
      && (r.Aborted? ==> r.id == esId + |r.emitted| && docs[|r.emitted| - 1] == Err(r.error))
  {
    if n > 0 {
      LoopRunShape(docs, esId, meta, n - 1);
      var prev := LoopRun(docs, esId, meta, n - 1);
      if prev.Aborted? {
        assert LoopRun(docs, esId, meta, n) == prev;
        var em := prev.emitted;
        assert !docs[|em| - 1].Ok?;
      }
    }
  }

  /** The k-th append of a loop run shows `_id == esId + k`. */
  lemma LoopRunIds(docs: seq<Result<ResultDoc>>, esId: int, meta: MetaDoc, n: nat)
    requires n <= |docs|
    ensures var em := LoopRun(docs, esId, meta, n).emitted;
      forall k | 0 <= k < |em| :: em[k].id == esId + k
  {
    LoopRunShape(docs, esId, meta, n);
    var em := LoopRun(docs, esId, meta, n).emitted;
    forall k | 1 <= k < |em| ensures em[k].id == esId + k {
      var i := k - 1;
      assert docs[i].Ok?;
    }
  }

  /** The k-th append of a run shows `_id == esId + k`. */
  lemma EmissionIds(v: Json, e: Entry, esId: int)
    ensures var em := ParseRunOf(v, e, esId).emitted;
      forall k | 0 <= k < |em| :: em[k].id == esId + k
  {
    match DefineMetaEsDoc(v, e)
    case Err(_) =>
    case Ok(meta) =>
      match ItemCount(v)
      case Err(_) =>
      case Ok(n) =>
        assert ParseRunOf(v, e, esId) == LoopRun(ItemDocs(v, e, n), esId, meta, n);
        LoopRunIds(ItemDocs(v, e, n), esId, meta, n);
  }

  /**
   * A run completes exactly when the meta document can be built, `items`
   * has a length, and the document of every item up to that length can be
   * built; it then appends `1 + len(items)` times: the meta document first,
   * then the document of each item in order.
   */
  lemma ParseCompleted(v: Json, e: Entry, esId: int)
    ensures ParseRunOf(v, e, esId).Completed? <==>
      && DefineMetaEsDoc(v, e).Ok?
      && ItemCount(v).Ok?
      && forall i | 0 <= i < ItemCount(v).value :: DefineResultEsDoc(v, e, i).Ok?
    ensures ParseRunOf(v, e, esId).Completed? ==>
      var em := ParseRunOf(v, e, esId).emitted;
      && |em| == 1 + ItemCount(v).value
      && em[0].source == MetaSource(DefineMetaEsDoc(v, e).value)
      && forall i | 0 <= i < ItemCount(v).value ::
           em[i + 1].source == ResultSource(DefineResultEsDoc(v, e, i).value)
  {
    match DefineMetaEsDoc(v, e)
    case Err(_) =>
    case Ok(meta) =>
      match ItemCount(v)
      case Err(_) =>
      case Ok(n) =>
        var docs := ItemDocs(v, e, n);
        LoopRunShape(docs, esId, meta, n);
        var em := LoopRun(docs, esId, meta, n).emitted;
        if forall i | 0 <= i < n :: DefineResultEsDoc(v, e, i).Ok? {
          assert forall i | 0 <= i < n :: docs[i].Ok?;
        }
        forall i | 0 <= i < n && ParseRunOf(v, e, esId).Completed?
          ensures em[i + 1].source == ResultSource(DefineResultEsDoc(v, e, i).value)
        {
          assert (i + 1) - 1 == i;
        }
  }

  /**
   * After a completed run the envelope holds `_id == esId + len(items)`, and
   * as `_source` the document of the last item, or the meta document when
   * there are no items.
   */
  lemma ParseFinalState(v: Json, e: Entry, esId: int)
    requires ParseRunOf(v, e, esId).Completed?
    ensures ItemCount(v).Ok? && DefineMetaEsDoc(v, e).Ok?
    ensures var em := ParseRunOf(v, e, esId).emitted;
      var n := ItemCount(v).value;
      && |em| > 0
      && Last(em).id == esId + n
      && Last(em).source ==
           if n == 0 then MetaSource(DefineMetaEsDoc(v, e).value)
           else ResultSource(DefineResultEsDoc(v, e, n - 1).value)
  {
    ParseCompleted(v, e, esId);
    EmissionIds(v, e, esId);
  }

  /**
   * A run that raises: in the meta document, with `_id == esId` written and
   * nothing appended; in `len(valuedict['items'])`, after the meta append;
   * or in the document of item `k`, after `k + 1` appends (every earlier
   * item document built), with `_id == esId + k + 1` written.
   */
  lemma ParseAborted(v: Json, e: Entry, esId: int)
    requires ParseRunOf(v, e, esId).Aborted?
    ensures var Aborted(em, err, id) := ParseRunOf(v, e, esId);
      && (em == [] <==> DefineMetaEsDoc(v, e).Err?)
      && (em == [] ==> err == DefineMetaEsDoc(v, e).error && id == esId)
      && (em != [] && ItemCount(v).Err? ==> |em| == 1 && err == ItemCount(v).error && id == esId)
      && (em != [] && ItemCount(v).Ok? ==>
            && |em| <= ItemCount(v).value
            && id == esId + |em|
            && (forall i | 0 <= i < |em| - 1 :: DefineResultEsDoc(v, e, i).Ok?)
            && DefineResultEsDoc(v, e, |em| - 1) == Err(err))
  {
    match DefineMetaEsDoc(v, e)
    case Err(_) =>
    case Ok(meta) =>
      match ItemCount(v)
      case Err(_) =>
      case Ok(n) => LoopRunShape(ItemDocs(v, e, n), esId, meta, n);
  }

  /** Looking up a key of an item below `len(items)` never raises IndexError. */
  lemma ItemLookupNoIndexError(items: Json, i: nat, name: string)
    requires Len(items).Ok? && i < Len(items).value
    ensures Lookup(items, [Index(i), Field(name)]) != Err(IndexError)
  {
    match Subscript(items, Index(i))
    case Err(_) =>
    case Ok(w) => FieldNeverIndexError(w, name);
  }

  /**
   * Once the meta document can be built, the document of an item below
   * `len(items)` never raises IndexError: `kind` is a key, `request[0].cx`
   * was already read for the meta document, and the item index is in range.
   */
  lemma ResultDocNoIndexError(v: Json, e: Entry, i: nat)
    requires DefineMetaEsDoc(v, e).Ok? && ItemCount(v).Ok? && i < ItemCount(v).value
    ensures DefineResultEsDoc(v, e, i) != Err(IndexError)
  {
    if LookupAll(v, ResultPaths(i)).Err? {
      var k := LookupAllFailingPath(v, ResultPaths(i));
      if k == 0 {
        FieldNeverIndexError(v, "kind");
      } else if k == 1 {
        MetaRequestValue(v, 8);
        ThroughPrefix(v, Request0, "cx");
      } else {
        var name := ResultPaths(i)[k][2].name;
        assert ResultPaths(i)[k] == [Field("items")] + [Index(i), Field(name)];
        LookupAppend(v, [Field("items")], [Index(i), Field(name)]);
        ItemLookupNoIndexError(Lookup(v, [Field("items")]).value, i, name);
      }
    }
  }

  /**
   * Once the meta document is appended, the run cannot raise IndexError: the
   * loop bound is `len(items)`, so only a missing key or a wrong shape stops it.
   */
  lemma NoIndexErrorAfterMeta(v: Json, e: Entry, esId: int)
    requires ParseRunOf(v, e, esId).Aborted? && ParseRunOf(v, e, esId).emitted != []
    ensures ParseRunOf(v, e, esId).error != IndexError
  {
    ParseAborted(v, e, esId);
    FieldNeverIndexError(v, "items");
    if ItemCount(v).Ok? {
      ResultDocNoIndexError(v, e, |ParseRunOf(v, e, esId).emitted| - 1);
    }
  }

  /**
   * A response object without `items` (a search with no results) aborts
   * the run with KeyError('items') right after the meta append, so
   * `create_google_es_docs` lets it escape.
   */
  lemma MissingItemsIsKeyError(v: Json, e: Entry, esId: int)
    requires DefineMetaEsDoc(v, e).Ok? && v.Obj? && "items" !in v.fields
    ensures ParseRunOf(v, e, esId) ==
      Aborted([Emission(esId, MetaSource(DefineMetaEsDoc(v, e).value))], KeyError(StrKey("items")), esId)
  {
    LookupOne(v, Field("items"));
  }

  // ---------------------------------------------------------------------
  // create_google_es_docs: every search key, one shared envelope
  // ---------------------------------------------------------------------

  /** A Python dict: its keys in iteration (insertion) order, and its entries. */
  datatype Dict<V> = Dict(keys: seq<string>, entries: map<string, V>) {
    ghost predicate Valid() {
      && (forall i, j | 0 <= i < j < |keys| :: keys[i] != keys[j])
      && (forall k :: k in entries <==> k in keys)
    }
  }

  /** A `logging.warning` (account missing) or `logging.error` (TypeError) naming a key. */
  datatype LogEntry = Warning(key: string) | Error(key: string)

  /** The `_id` and `_source` the shared envelope holds. */
  datatype EnvelopeState = EnvelopeState(id: Json, source: Source)

  /** The envelope after a `parse_google_json` run that started from `s`. */
  function AfterParse(run: ParseRun, s: EnvelopeState): (s': EnvelopeState)
    ensures run.Aborted? ==> s'.id == Int(run.id)
    ensures run.emitted == [] ==> s'.source == s.source
    ensures run.emitted != [] ==> s'.source == Last(run.emitted).source
  {
    match run
    case Completed(em) => if em == [] then s else EnvelopeState(Int(Last(em).id), Last(em).source)
    case Aborted(em, _, id) => EnvelopeState(Int(id), if em == [] then s.source else Last(em).source)
  }

  /**
   * What a parse leaves in the envelope: a failing meta build leaves
   * `_id == esId` over the old `_source`; a completed run leaves
   * `_id == esId + len(items)` and the last item's document, or the meta
   * document when there are no items, whatever the envelope held before.
   */
  lemma EnvelopeAfterParse(v: Json, e: Entry, esId: int, s: EnvelopeState)
    ensures DefineMetaEsDoc(v, e).Err? ==>
      AfterParse(ParseRunOf(v, e, esId), s) == EnvelopeState(Int(esId), s.source)
    ensures ParseRunOf(v, e, esId).Completed? ==>
      && ItemCount(v).Ok? && DefineMetaEsDoc(v, e).Ok?
      && var n := ItemCount(v).value;
      AfterParse(ParseRunOf(v, e, esId), s) ==
        EnvelopeState(Int(esId + n),
                      if n == 0 then MetaSource(DefineMetaEsDoc(v, e).value)
                      else ResultSource(DefineResultEsDoc(v, e, n - 1).value))
  {
    if ParseRunOf(v, e, esId).Completed? {
      ParseFinalState(v, e, esId);
    }
  }

  /**
   * The parse run of every key that has an account, each from the same
   * `esId`; a key missing here is one `create_google_es_docs` skips.
   */
  function KeyRuns(resultsdict: Dict<Json>, accountdict: map<string, Entry>, esId: int): (runs: map<string, ParseRun>)
    ensures forall k :: k in runs <==> k in resultsdict.entries && k in accountdict
  {
    map k | k in resultsdict.entries && k in accountdict :: ParseRunOf(resultsdict.entries[k], accountdict[k], esId)
  }

  /**
   * The course of `create_google_es_docs`: the appends of the runs that
   * completed, the log, and the envelope's final state; or the exception
   * that escaped, with the log and state at that moment.
   */
  datatype BatchRun =
    | Finished(emitted: seq<Emission>, log: seq<LogEntry>, state: EnvelopeState)
    | Raised(error: PyError, log: seq<LogEntry>, state: EnvelopeState)

  /**
   * The run over the first `n` of `keys`, given each key's parse run in
   * `runs`. A key without a run (no account) is logged and skipped; a run
   * that raised TypeError is logged and swallowed, any other exception escapes.
   */
  function BatchRunOf(keys: seq<string>, runs: map<string, ParseRun>, s0: EnvelopeState, n: nat): BatchRun
    requires n <= |keys|
  {
    if n == 0 then Finished([], [], s0)
    else
      match BatchRunOf(keys, runs, s0, n - 1)
      case Raised(err, log, s) => Raised(err, log, s)
      case Finished(em, log, s) =>
        var key := keys[n - 1];
        if key !in runs then Finished(em, log + [Warning(key)], s)
        else
          var run := runs[key];
          var s' := AfterParse(run, s);
          match run
          case Completed(docs) => Finished(em + docs, log, s')
          case Aborted(_, err, _) =>
            if err == TypeError then Finished(em, log + [Error(key)], s')
            else Raised(err, log, s')
  }

  /** Once an exception has escaped, later keys are never reached. */
  lemma {:induction false} BatchRaisedStays(keys: seq<string>, runs: map<string, ParseRun>,
                                           s0: EnvelopeState, k: nat, n: nat)
    requires k <= n <= |keys|
    requires BatchRunOf(keys, runs, s0, k).Raised?
    ensures BatchRunOf(keys, runs, s0, n) == BatchRunOf(keys, runs, s0, k)
    decreases n
  {
    if n > k {
      BatchRaisedStays(keys, runs, s0, k, n - 1);
    }
  }

  /**
   * The list, log and envelope held part-way through `create_google_es_docs`
   * agree with a batch run that has not raised: one list entry per append,
   * each of them the envelope itself.
   */
  ghost predicate Mirrors(run: BatchRun, esdocs: seq<EsFormat>, log: seq<LogEntry>,
                          esformat: EsFormat, state: EnvelopeState)
  {
    && run.Finished? && log == run.log && state == run.state
    && |esdocs| == |run.emitted| && (forall j | 0 <= j < |esdocs| :: esdocs[j] == esformat)
  }

  /**
   * `create_google_es_docs`: for each key in order, skip it with a warning
   * when it has no account, otherwise parse it from the same `esId` and
   * extend the list; a TypeError is logged and the loop goes on, any other
   * exception leaves the function. The list holds `esformat` once per append.
   */
  method CreateGoogleEsDocs(resultsdict: Dict<Json>, accountdict: map<string, Entry>,
                            esformat: EsFormat, esId: int)
    returns (r: Result<seq<EsFormat>>, ghost log: seq<LogEntry>)
    requires resultsdict.Valid()
    modifies esformat`id, esformat`source
    ensures var run := BatchRunOf(resultsdict.keys, KeyRuns(resultsdict, accountdict, esId),
                                  EnvelopeState(old(esformat.id), old(esformat.source)),
                                  |resultsdict.keys|);
      && log == run.log
      && EnvelopeState(esformat.id, esformat.source) == run.state
      && match run
         case Finished(em, _, _) => r.Ok? && |r.value| == |em| && forall i | 0 <= i < |r.value| :: r.value[i] == esformat
         case Raised(err, _, _) => r == Err(err)
  {
    ghost var s0 := EnvelopeState(esformat.id, esformat.source);
    ghost var runs := KeyRuns(resultsdict, accountdict, esId);
    var esdocs: seq<EsFormat> := [];
    log := [];
    for i := 0 to |resultsdict.keys|
      invariant Mirrors(BatchRunOf(resultsdict.keys, runs, s0, i), esdocs, log, esformat,
                        EnvelopeState(esformat.id, esformat.source))
    {
      var step;
      step, log := CreateKeyDocs(resultsdict, accountdict, esformat, esId, i, runs, s0, esdocs, log);
      if step.Err? {
        BatchRaisedStays(resultsdict.keys, runs, s0, i + 1, |resultsdict.keys|);
        return step, log;
      }
      esdocs := step.value;
    }
    r := Ok(esdocs);
  }

  /**
   * One pass of that loop, for the key at position `i`: a warning when it
   * has no account, otherwise its `parse_google_json` call, whose list
   * extends `esdocs`, whose TypeError is logged, and whose other exceptions
   * escape.
   */
  method CreateKeyDocs(resultsdict: Dict<Json>, accountdict: map<string, Entry>, esformat: EsFormat,
                       esId: int, i: nat, ghost runs: map<string, ParseRun>, ghost s0: EnvelopeState,
                       esdocs: seq<EsFormat>, ghost log: seq<LogEntry>)
    returns (r: Result<seq<EsFormat>>, ghost log': seq<LogEntry>)
    requires resultsdict.Valid() && i < |resultsdict.keys|
    requires runs == KeyRuns(resultsdict, accountdict, esId)
    requires Mirrors(BatchRunOf(resultsdict.keys, runs, s0, i), esdocs, log, esformat,
                     EnvelopeState(esformat.id, esformat.source))
    modifies esformat`id, esformat`source
    ensures var run := BatchRunOf(resultsdict.keys, runs, s0, i + 1);
      match run
      case Finished(_, _, _) =>
        r.Ok? && Mirrors(run, r.value, log', esformat, EnvelopeState(esformat.id, esformat.source))
      case Raised(err, lg, st) =>
        r == Err(err) && log' == lg && EnvelopeState(esformat.id, esformat.source) == st
  {
    var key := resultsdict.keys[i];
    if key in accountdict {
      var parsed := ParseKey(resultsdict, accountdict, esformat, esId, key, runs);
      if parsed.Ok? {
        r, log' := Ok(esdocs + parsed.value), log;
      } else if parsed.error == TypeError {
        r, log' := Ok(esdocs), log + [Error(key)];
      } else {
        r, log' := Err(parsed.error), log;
      }
    } else {
      r, log' := Ok(esdocs), log + [Warning(key)];
    }
  }

  /** The `parse_google_json` call for one key that has an account, told by that key's run. */
  method ParseKey(resultsdict: Dict<Json>, accountdict: map<string, Entry>, esformat: EsFormat,
                  esId: int, key: string, ghost runs: map<string, ParseRun>)
    returns (r: Result<seq<EsFormat>>)
    requires resultsdict.Valid() && key in resultsdict.keys && key in accountdict
    requires runs == KeyRuns(resultsdict, accountdict, esId)
    modifies esformat`id, esformat`source
    ensures key in runs
    ensures EnvelopeState(esformat.id, esformat.source) ==
            AfterParse(runs[key], EnvelopeState(old(esformat.id), old(esformat.source)))
    ensures match runs[key]
      case Completed(em) => r.Ok? && |r.value| == |em| && forall i | 0 <= i < |r.value| :: r.value[i] == esformat
      case Aborted(_, err, _) => r == Err(err)
  {
    r := ParseGoogleJson(resultsdict.entries[key], accountdict[key], esformat, esId);
    assert runs[key] == ParseRunOf(resultsdict.entries[key], accountdict[key], esId);
  }

  // ---------------------------------------------------------------------
  // Properties of the batch, against a key-by-key reference
  // ---------------------------------------------------------------------

  /** What one key of the batch amounts to on its own. */
  datatype KeyOutcome =
    | MissingAccount
    | Emitted(docs: seq<Emission>)
    | Swallowed
    | Propagated(error: PyError)

  /** The outcome of one key, from its parse run alone. */
  function KeyOutcomeOf(runs: map<string, ParseRun>, key: string): KeyOutcome
  {
    if key !in runs then MissingAccount
    else
      match runs[key]
      case Completed(em) => Emitted(em)
      case Aborted(_, err, _) => if err == TypeError then Swallowed else Propagated(err)
  }

  /** The appends of the given keys, each key's block in key order. */
  function KeysDocs(runs: map<string, ParseRun>, keys: seq<string>): seq<Emission>
  {
    if keys == [] then []
    else
      (match KeyOutcomeOf(runs, keys[0])
       case Emitted(docs) => docs
       case _ => [])
      + KeysDocs(runs, keys[1..])
  }

  /** The log lines of the given keys, in key order. */
  function KeysLog(runs: map<string, ParseRun>, keys: seq<string>): seq<LogEntry>
  {
    if keys == [] then []
    else
      (match KeyOutcomeOf(runs, keys[0])
       case MissingAccount => [Warning(keys[0])]
       case Swallowed => [Error(keys[0])]
       case _ => [])
      + KeysLog(runs, keys[1..])
  }

  lemma {:induction false} KeysDocsSnoc(runs: map<string, ParseRun>, keys: seq<string>, key: string)
    ensures KeysDocs(runs, keys + [key]) ==
      KeysDocs(runs, keys) + (match KeyOutcomeOf(runs, key) case Emitted(docs) => docs case _ => [])
    decreases |keys|
  {
    if keys == [] {
      assert [key][1..] == [];
    } else {
      assert (keys + [key])[1..] == keys[1..] + [key];
      KeysDocsSnoc(runs, keys[1..], key);
    }
  }

  lemma {:induction false} KeysLogSnoc(runs: map<string, ParseRun>, keys: seq<string>, key: string)
    ensures KeysLog(runs, keys + [key]) ==
      KeysLog(runs, keys) +
      (match KeyOutcomeOf(runs, key)
       case MissingAccount => [Warning(key)]
       case Swallowed => [Error(key)]
       case _ => [])
    decreases |keys|
  {
    if keys == [] {
      assert [key][1..] == [];
    } else {
      assert (keys + [key])[1..] == keys[1..] + [key];
      KeysLogSnoc(runs, keys[1..], key);
    }
  }

  /**
   * The batch over the first `n` keys finishes exactly when none of them
   * raises anything but TypeError; its list is then the concatenation, in
   * key order, of the blocks of the keys whose parse completed (keys without
   * an account, and keys whose parse raised TypeError, add nothing), and its
   * log names each skipped key with a warning and each swallowed one with an
   * error.
   */
  lemma {:induction false} BatchFinished(keys: seq<string>, runs: map<string, ParseRun>,
                                        s0: EnvelopeState, n: nat)
    requires n <= |keys|
    ensures BatchRunOf(keys, runs, s0, n).Finished? <==>
      forall i | 0 <= i < n :: !KeyOutcomeOf(runs, keys[i]).Propagated?
    ensures BatchRunOf(keys, runs, s0, n).Finished? ==>
      && BatchRunOf(keys, runs, s0, n).emitted == KeysDocs(runs, keys[..n])
      && BatchRunOf(keys, runs, s0, n).log == KeysLog(runs, keys[..n])
    decreases n
  {
    if n > 0 {
      var key := keys[n - 1];
      BatchFinished(keys, runs, s0, n - 1);
      assert keys[..n] == keys[..n - 1] + [key];
      KeysDocsSnoc(runs, keys[..n - 1], key);
      KeysLogSnoc(runs, keys[..n - 1], key);
      var prev := BatchRunOf(keys, runs, s0, n - 1);
      var cur := BatchRunOf(keys, runs, s0, n);
      var outcome := KeyOutcomeOf(runs, key);
      if prev.Raised? {
        assert cur == prev;
      } else if key !in runs {
        assert cur.emitted == prev.emitted && cur.log == prev.log + [Warning(key)];
      } else {
        match runs[key]
        case Completed(docs) =>
          assert outcome == Emitted(docs);
          assert cur.emitted == prev.emitted + docs && cur.log == prev.log;
        case Aborted(_, err, _) =>
          if err == TypeError {
            assert outcome == Swallowed;
            assert cur.emitted == prev.emitted && cur.log == prev.log + [Error(key)];
          } else {
            assert outcome == Propagated(err);
            assert cur.Raised?;
          }
      }
    }
  }

  /**
   * When the batch raises, the exception is that of the first key whose
   * parse raised something other than TypeError; it is never a TypeError,
   * and the log is that of the keys before it.
   */
  lemma {:induction false} BatchRaised(keys: seq<string>, runs: map<string, ParseRun>,
                                      s0: EnvelopeState, n: nat) returns (i: nat)
    requires n <= |keys|
    requires BatchRunOf(keys, runs, s0, n).Raised?
    ensures i < n
    ensures var err := BatchRunOf(keys, runs, s0, n).error;
      && err != TypeError
      && KeyOutcomeOf(runs, keys[i]) == Propagated(err)
      && BatchRunOf(keys, runs, s0, n).log == KeysLog(runs, keys[..i])
    ensures forall j | 0 <= j < i :: !KeyOutcomeOf(runs, keys[j]).Propagated?
    decreases n
  {
    if BatchRunOf(keys, runs, s0, n - 1).Raised? {
      i := BatchRaised(keys, runs, s0, n - 1);
    } else {
      i := n - 1;
      BatchFinished(keys, runs, s0, n - 1);
    }
  }

  /**
   * Every key starts numbering from the same `esId`: the block of a key
   * whose parse completed carries the ids `esId`, `esId + 1`, ... whatever
   * keys came before it, so ids repeat across keys.
   */
  lemma KeyIdsRestart(resultsdict: Dict<Json>, accountdict: map<string, Entry>, esId: int, key: string)
    requires resultsdict.Valid()
    requires KeyOutcomeOf(KeyRuns(resultsdict, accountdict, esId), key).Emitted?
    ensures var docs := KeyOutcomeOf(KeyRuns(resultsdict, accountdict, esId), key).docs;
      && |docs| > 0
      && forall j | 0 <= j < |docs| :: docs[j].id == esId + j
  {
    EmissionIds(resultsdict.entries[key], accountdict[key], esId);
  }
}
