# greencall Google document mapper, in Dafny

This project models `greencall/utils/google.py`. That module turns Google Custom
Search API responses (decoded JSON) into Elasticsearch bulk-index envelopes:

- `define_meta_es_doc` builds one "meta" document per response. It takes the account
  holder and number from a two-element entry and about seventeen fields from fixed
  paths: `kind`, `url.template`, `queries.request[0].*` and `searchInformation.*`.
- `define_result_es_doc` builds one document per search result, from `items[index]`.
- `parse_google_json` writes `_id`/`_source` into the caller's envelope dict. It does
  this for the meta document and then for each item. Each time it appends the envelope
  to a list and counts the id up from `es_id`.
- `create_google_es_docs` walks the response dict in key order and skips, with a
  warning, each key that has no account. It extends one list with the result of
  `parse_google_json` for every other key. It logs and swallows `TypeError`, and any
  other exception escapes.

Two modules:

- `PyJson` (`pyjson.dfy`) holds what the mapper relies on from Python:
  - decoded JSON values;
  - subscripting with a string key or an integer index, returning the `KeyError`,
    `IndexError` or `TypeError` Python raises;
  - `len`;
  - `a, b = value` unpacking, which raises `TypeError` or `ValueError`.
- `Google` (`google.dfy`) holds the mapper itself.
  - The two document builders are pure functions that return a record or the
    exception raised.
  - The envelope is the class `EsFormat`, whose `id` and `source` fields the methods
    overwrite in place.
  - `ParseGoogleJson` and `CreateGoogleEsDocs` are methods with the source's loops:
    - `ParseGoogleJson` holds the `while` loop over the items (in `AppendItemDocs`,
      one pass per `AppendItemDoc`);
    - `CreateGoogleEsDocs` holds the `for` loop over the keys (one pass per
      `CreateKeyDocs`, parsing with `ParseKey`).
  - Each method is proved against a reference function that describes the run:
    - `ParseRunOf` / `LoopRun` give the appends made, with the `_id` and `_source`
      at each one, and the exception;
    - `BatchRunOf` gives the appends, the log and the final envelope state.
  - Lemmas then state the documented behaviour about these functions. They also
    relate `BatchRunOf` to an independent key-by-key description (`KeyOutcomeOf`,
    `KeysDocs`, `KeysLog`).

The model follows the code as written:

- **Aliasing.** Every element of a returned list is the `esformat` object itself, so
  all the elements show the last `_id`/`_source` written.
- **No id advance.** Every key is parsed from the same `es_id`, which is never
  advanced.
- **Write order.** `_id` is written before the meta document is built, so a failure
  there leaves `_id` changed and `_source` as it was.
- **Template.** The template is copied unchanged, because the "mark as raw" comment
  does nothing.
- **Exceptions.** Only `TypeError` is caught.
  - A missing field raises `KeyError`, which escapes `create_google_es_docs`.
  - A short `request` list raises `IndexError`, which escapes too.

## Model

The four source functions are defined as `Google.DefineMetaEsDoc`
(`define_meta_es_doc`, google.py:64-108), `Google.DefineResultEsDoc`
(`define_result_es_doc`, 110-123), the method `Google.ParseGoogleJson` with its reference
run `Google.ParseRunOf` (`parse_google_json`, 125-145; `len(items)` is `Google.ItemCount`,
136), and the method `Google.CreateGoogleEsDocs` with its reference run `Google.BatchRunOf`
(`create_google_es_docs`, 148-175). The rows below name the members whose contracts state
what these do.

| member | source | states |
|---|---|---|
| PyJson.LookupAppend | greencall/utils/google.py:81-106 | A chained subscript `v[a]...[b][c]...` evaluates the prefix and then the rest on its value; the first failure is the exception raised |
| PyJson.LookupOne | greencall/utils/google.py:79 | A one-step path raises or yields exactly what a single subscript does |
| PyJson.LookupAll | greencall/utils/google.py:79-106 | Evaluating the document's paths in statement order yields one value per path when none raises |
| PyJson.LookupAllValues | greencall/utils/google.py:79-106 | When no field lookup raises, the i-th value is what the i-th path yields |
| PyJson.LookupAllFirstError | greencall/utils/google.py:79-106 | If every earlier path succeeds and path k raises, the builder raises exactly path k's exception (statements run in order) |
| PyJson.LookupAllFailingPath | greencall/utils/google.py:79-106 | A failing builder has a first failing path whose exception is the one raised, all earlier paths succeeding |
| PyJson.LookupAllAgree | greencall/utils/google.py:79-106 | Two responses that agree on every looked-up path give the same outcome |
| PyJson.LookupThrough | greencall/utils/google.py:82-100 | Responses that agree on a prefix (such as `queries.request[0]`) agree on every path extending it |
| PyJson.FieldNeverIndexError | greencall/utils/google.py:136 | Subscripting with a string key never raises IndexError |
| Google.MetaRequestValue | greencall/utils/google.py:82-100 | In a successful meta build, `queries.request[0]` exists and each request-level field is that entry's field |
| Google.MetaSearchInfoValue | greencall/utils/google.py:101-106 | In a successful meta build, `searchInformation` exists and each timing field is that block's field |
| Google.MetaDocFields | greencall/utils/google.py:75-106 | A built meta document holds the two unpacked components of `meta_info`, `kind` and the template verbatim, every request-level field from `request[0]`, and the timing fields; its `totalResults` is `searchInformation.totalResults`, while `request[0].totalResults` had to exist but is overwritten |
| Google.MetaDependsOnlyOnFirstRequest | greencall/utils/google.py:82-106 | Two responses with the same `kind`, template, `request[0]` and `searchInformation` give the same meta outcome, whatever other request entries they hold |
| Google.EmptyRequestListIsIndexError | greencall/utils/google.py:82 | With a valid entry, `kind` and template, an empty `queries.request` list raises IndexError |
| Google.ResultDocFields | greencall/utils/google.py:113-121 | A built result document holds the unpacked account, `kind`, `cx` from `request[0]`, and title/link/snippet from `items[index]` |
| Google.ResultIndexOutOfRange | greencall/utils/google.py:119 | An index at or past the length of the `items` list raises IndexError |
| Google.LoopRun | greencall/utils/google.py:135-143 | After n passes without an exception there are n+1 appends; an aborted loop made between 1 and n |
| Google.ParseRunOf | greencall/utils/google.py:127-145 | A completed run made at least one append (the meta document) |
| Google.LoopAbortStays | greencall/utils/google.py:135-143 | Once a pass raises, the run is fixed: later passes never happen |
| Google.ParseGoogleJson | greencall/utils/google.py:125-145 | Matches the reference run: on success, one list entry per append, each entry the `esformat` object itself, and the envelope holding the last append's `_id`/`_source`; on an exception, that exception, `_id` as last written, and `_source` the last one built (unchanged if the meta build raised) |
| Google.AppendItemDocs | greencall/utils/google.py:135-143 | The while loop, from the state after the meta append, ends as the reference loop run over all items |
| Google.AppendItemDoc | greencall/utils/google.py:138-143 | One pass writes `_id`, builds the item document and appends the envelope; if the build raises, `_id` is written and `_source` untouched |
| Google.EsFormat.constructor | greencall/utils/google.py:9-14 | The docstring's example envelope (the mapper never builds one; callers pass theirs in): it keeps its `_index`/`_type` and starts with no `_id` and an empty `_source` |
| Google.LoopRunShape | greencall/utils/google.py:129-143 | The first append carries the meta document at `es_id`; append i+1 carries item i's document at `es_id + i + 1`; the loop completes iff every item document builds; an abort leaves `_id` at `es_id + appends` after the failing item |
| Google.LoopRunIds | greencall/utils/google.py:133-143 | The k-th append of the loop carries `_id == es_id + k` |
| Google.EmissionIds | greencall/utils/google.py:129-143 | In every run, whatever its outcome, the k-th emission sets `_id = es_id + k` |
| Google.ParseCompleted | greencall/utils/google.py:127-145 | A parse succeeds iff the meta document, `len(items)` and every item document succeed; then it makes `1 + len(items)` appends, the meta document first and item i's document at position i+1 |
| Google.ParseFinalState | greencall/utils/google.py:129-143 | After a successful parse, `_id == es_id + len(items)` and `_source` is the last item's document, or the meta document when there are no items |
| Google.ParseAborted | greencall/utils/google.py:129-143 | A failing parse made no append iff the meta build raised (its exception, `_id == es_id`); a failing `len(items)` leaves one append; otherwise the failing item is the last one tried, every earlier item document was built, and `_id` is at its number |
| Google.ItemLookupNoIndexError | greencall/utils/google.py:119-121 | Inside the loop bound, `items[index][name]` never raises IndexError |
| Google.ResultDocNoIndexError | greencall/utils/google.py:115-121 | Once the meta document is built, an item document inside the loop bound never raises IndexError |
| Google.NoIndexErrorAfterMeta | greencall/utils/google.py:132-143 | A run that fails after the meta append never fails with IndexError |
| Google.MissingItemsIsKeyError | greencall/utils/google.py:132-136 | A response without `items` makes the meta append and then raises KeyError('items') with `_id == es_id` |
| Google.EnvelopeAfterParse | greencall/utils/google.py:129-143 | After a parse whose meta build raised, the envelope holds `_id == es_id` over its old `_source`; after a completed parse it holds `_id == es_id + len(items)` and the last item's document (the meta document when there are no items), whatever it held before |
| Google.BatchRaisedStays | greencall/utils/google.py:161-169 | Once an exception escapes, no later key is processed |
| Google.CreateGoogleEsDocs | greencall/utils/google.py:148-175 | Matches the reference batch run: the log, the final envelope state, and on success one list entry per append of every completed key, each entry the `esformat` object; a non-TypeError exception escapes |
| Google.CreateKeyDocs | greencall/utils/google.py:159-173 | One key's pass keeps the list, log and envelope in step with the reference run, or returns the escaping exception |
| Google.ParseKey | greencall/utils/google.py:163-166 | Parsing a key with an account behaves as that key's reference parse run, from the same `es_id` |
| Google.KeysDocsSnoc | greencall/utils/google.py:157-166 | The concatenated output of keys followed by one more key is the earlier output followed by that key's list |
| Google.KeysLogSnoc | greencall/utils/google.py:168-173 | The log of keys followed by one more key is the earlier log plus a warning (no account), an error (TypeError) or nothing |
| Google.BatchFinished | greencall/utils/google.py:155-175 | The batch returns iff no key raised anything but TypeError; then its output is the concatenation, in key order, of the successful keys' lists, and its log holds a warning per key without an account and an error per swallowed TypeError, in key order |
| Google.BatchRaised | greencall/utils/google.py:161-169 | An escaping exception is never TypeError; it comes from the first key that raised such an exception, every earlier key finished or was swallowed, and the log holds only those earlier keys' lines |
| Google.KeyIdsRestart | greencall/utils/google.py:165-166 | Every key's appends are numbered from the same unchanged `es_id`: the j-th has `_id == es_id + j` |

## Left out

- The loading of `resultsdict` and `accountdict` (`read_json`, the CSV reader) is file
  I/O outside this module. The two dicts are parameters instead.
- `logging.warning` and `logging.error` are kept as a ghost log of (level, key) entries.
  The message text is not modelled.
- `create_google_es_index` is an empty stub with no behaviour.
- `_index` and `_type` are never written by the mapper. They are kept as fields and
  never changed. Submitting the envelopes to Elasticsearch is not part of this model.
- JSON numbers such as `searchTime` are copied and never computed with, so `Float`
  holds an opaque real.
- `len(valuedict['items'])` is evaluated on every loop test in the source. It is
  evaluated once here. Nothing mutates `valuedict`, so it is the same value each time.
- `meta_info` is modelled by what iterating it yields (`Entry`). Types whose iteration
  raises something other than `TypeError` are not modelled.
- The order of `resultsdict.keys()` is the insertion order of the dict, given as
  `Dict.keys`.
- `CreateGoogleEsDocs` requires duplicate-free keys that match the entries, as a Python
  dict guarantees.
- Exceptions raised while the caller's `esformat` is not a dict are not modelled. The
  envelope is always an `EsFormat` object.
