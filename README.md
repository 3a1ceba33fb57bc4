# Retrieval evaluation, modelled in Dafny

The repository evaluates a retrieval system (a vector store that answers a
question with its nearest document chunks) against a groundtruth file that
maps each document id to the questions it answers. Two scripts do this:

- `eval_topk.py` flattens the groundtruth into `(question, expected_doc_id)`
  queries and optionally shuffles and samples them with a seeded generator.
  It asks the store for `max(ks)` results per query and normalises whatever
  container comes back (a DataFrame or a list of tuples) into ranked ids and
  distances. Per query it scores Hit@K for every K, the rank of the expected
  id and the reciprocal rank. Over the run it reports the mean Hit@K, the MRR
  and the mean rank of hits.
- `eval_top1.py` builds the same queries and asks for a single result. It
  reads one identifier from that result, marks the query correct when it is
  the expected id, and reports the accuracy.

The model has these modules:

- `Wrappers`: `Option`, `Result` and the Python exceptions that escape.
- `PyText`: `str.strip`, `str(int)`, `repr(str)` and the text `float()` accepts.
- `PyValues`: the dynamically typed values the scripts handle, with their
  truthiness, `str()`, `float()` acceptance, slicing and dict lookups.
- `VectorStore`: the shapes `search` returns. The store itself is a function
  parameter.
- `Sampler`: CPython's Fisher–Yates shuffle and the sampled prefix.
- `EvalTopK` and `EvalTop1`: the two scripts.

Loops that append to lists and the in-place shuffle are methods. Each is
proved equal to a specification function, and the properties are lemmas
about those functions.

## Model

| member | source | states |
|---|---|---|
| PyText.Strip | eval_topk.py:36-37 | `strip()` leaves no whitespace at either end, is empty exactly when the text is all whitespace, and never grows the text |
| PyText.StripIsInfix | eval_topk.py:36-37 | what `strip()` removes is a whitespace prefix and a whitespace suffix: the result is a contiguous slice of the input |
| PyText.NatText | eval_topk.py:71 | `str()` of a non-negative int is a non-empty run of decimal digits |
| PyText.StrRepr | eval_topk.py:105 | `repr()` of a string (how strings print inside `str(item)` of a container) starts and ends with the same quote character |
| PyText.IsSpace | eval_topk.py:36-37 | `c.isspace()`: ASCII tab to carriage return, the separators U+001C to U+001F, space, and the Unicode spaces, which is what `strip()` removes |
| PyText.IsFloatSpace | eval_topk.py:75-78 | the whitespace `float()` ignores: like `isspace` but without U+001C to U+001F. `FloatKeepsSeparators` shows the difference |
| PyText.FloatStrip | eval_topk.py:75-78 | the text `float()` parses once surrounding float whitespace is gone; it starts and ends with a character `float()` does not skip |
| PyText.FloatLiteral | eval_topk.py:75-78 | the texts `float()` parses: float whitespace, an optional sign, then a decimal literal or `inf`, `infinity` or `nan` in any case. The lemmas below pin it down on accepted and rejected texts |
| PyText.FloatLiteralIgnoresSpace | eval_topk.py:76 | `float()` accepts a text exactly when it accepts the text with its float whitespace removed |
| PyText.PlainFloatLiteral | eval_topk.py:75-78 | a text without a sign and without a leading `i` or `n` is accepted exactly when it is a decimal literal |
| PyText.FloatAcceptsDecimal | eval_topk.py:75-78 | `float()` accepts `"1"`, `"1.5"` and `"1e-3"` |
| PyText.FloatAcceptsInfinity | eval_topk.py:75-78 | `float()` accepts `"-inf"` |
| PyText.FloatAcceptsPadded | eval_topk.py:75-78 | `float()` accepts `" 1.5 "`: surrounding spaces are ignored |
| PyText.FloatKeepsSeparators | eval_topk.py:75-78 | `float("1")` converts but `float("\x1c1")` raises, although `strip()` turns the latter into `"1"` |
| PyText.FloatRejectsBareExponent | eval_topk.py:75-78 | `float("1.5e")` raises, so such a distance cell becomes `None` |
| PyText.FloatRejectsNoDigits | eval_topk.py:75-78 | `float(".")` and `float("")` raise: a literal needs a digit |
| PyValues.Truthy | eval_topk.py:36 | `bool(q)`: `None`, `False`, zero, the empty text and empty containers are false. It is the first half of the filter that `KeptStringIff` characterises for strings |
| PyValues.NotNA | eval_topk.py:59-61 | `pd.notna(cell)`: false for `None` and NaN. `RowIdentifierIsFirstCandidate` shows a null `doc_id` or `id` cell is passed over |
| PyValues.Repr | eval_topk.py:105 | `repr()` of a value, which is what `str()` prints for every non-string value; a string inside a container prints quoted (`StrRepr`) |
| PyValues.FloatConvertible | eval_topk.py:75-78 | which values `float()` converts instead of raising; `FloatOrNoneExamples`, `FloatOrNoneReadsText` and the `PyText` float lemmas pin it down on cells of each kind |
| PyValues.Str | eval_topk.py:36-37 | `str()`: a string is its own text; any other value prints as its `repr`. `KeptStringIff` and `ItemIdentifierIsFirstCandidate` use it |
| PyValues.StrStrip | eval_topk.py:71 | `str(cand).strip()` has no surrounding whitespace |
| PyValues.FloatOrNone | eval_topk.py:75-78 | `try: float(cell) except: None`: the cell itself when `float()` accepts it, `None` otherwise. `FloatOrNoneExamples` and `FloatOrNoneReadsText` give cells of each kind |
| PyValues.Take | eval_topk.py:85 | `s[:k]`, also used at eval_topk.py lines 117 and 137. `TakeKeeps` states Python's slice rule for it |
| PyValues.FloatOrNoneExamples | eval_topk.py:74-80 | a float cell (NaN included) or a boolean is kept as the distance; `None`, a list and a dict become `None` |
| PyValues.FloatOrNoneReadsText | eval_topk.py:74-80 | numeric text is kept as the distance even with surrounding whitespace, a signed `inf` or a signed exponent |
| PyValues.TakeKeeps | eval_topk.py:85 | `s[:k]` keeps position `i` exactly when `i < k`, or `i < len(s) + k` for a negative `k`, and keeps it unchanged; a `k` past the end keeps everything, and a negative `k` drops exactly the last `-k` elements |
| PyValues.Lookup | eval_topk.py:68 | `meta[key]` if `key in meta`. `LookupSpec` characterises it |
| PyValues.LookupSpec | eval_topk.py:68 | `key in meta` holds exactly when some entry has that key, and `meta[key]` is the value stored under it |
| PyValues.FirstPresent | eval_topk.py:67-70 | the key loop with `break`. `FirstPresentSpec` characterises it in both directions |
| PyValues.FirstPresentSpec | eval_topk.py:67-70 | the key loop with `break` finds nothing exactly when no key is present with a non-`None` value; otherwise it yields the value of a usable key and every earlier key is unusable |
| Sampler.Sampling | eval_topk.py:114 | `if sample_size:`: `None` and 0 skip the shuffle and the slice, as at eval_top1.py line 74. `SampleFromPermutation` shows the list is then unchanged |
| Sampler.Shuffled | eval_topk.py:115-116 | `shuffle` as CPython runs it: positions `n-1` down to 1 each swapped with the drawn position. `ShuffledPermutes` proves it a permutation and `Shuffle` is the loop proved equal to it |
| Sampler.Sample | eval_topk.py:114-117 | the queries that go on to be evaluated. `SampleFromPermutation` and `FullSampleIsPermutation` describe it |
| Sampler.Swap | eval_topk.py:115-116 | one shuffle step exchanges two positions and leaves every other one alone |
| Sampler.ShuffledPermutes | eval_topk.py:115-116 | `shuffle` keeps the length and the multiset of queries |
| Sampler.Shuffle | eval_topk.py:115-116 | the in-place loop leaves the array equal to the specified shuffle of its old contents |
| Sampler.SampleFromPermutation | eval_topk.py:114-117 | the sample is drawn from a permutation of the queries (multiset inclusion) and has `len(queries[:sample_size])` elements; without a size it is the list itself |
| Sampler.FullSampleIsPermutation | eval_topk.py:114-117 | a size at least the number of queries keeps every query, reordered |
| Sampler.SampleInPlace | eval_top1.py:74-76 | shuffles the caller's array in place exactly when a size is set and returns the kept prefix |
| EvalTopK.Kept | eval_topk.py:36 | `q and str(q).strip()`. `KeptStringIff` shows a string is dropped exactly when it is blank |
| EvalTopK.Flatten | eval_topk.py:32-38 | the queries of every document in mapping order. `FlattenMembers` gives its members in both directions, and `FlattenAppend` and `QueriesOfAppend` its order |
| EvalTopK.QueriesOf | eval_topk.py:35-37 | the queries of one document. `QueriesOfMembers` and `QueriesOfAppend` give its members and order |
| EvalTopK.Emitted | eval_topk.py:36-37 | a question contributes nothing or exactly one query: its trimmed text with the trimmed doc id |
| EvalTopK.KeptStringIff | eval_topk.py:36 | a string question is dropped exactly when it is empty or whitespace only |
| EvalTopK.FlattenAppend | eval_topk.py:34-37 | queries come out in mapping order: flattening two halves of the groundtruth and concatenating gives the flattening of the whole |
| EvalTopK.QueriesOfAppend | eval_topk.py:35-37 | within a document, queries come out in question-list order |
| EvalTopK.QueriesOfMembers | eval_topk.py:35-37 | a query comes from a document exactly when one of its kept questions trims to it |
| EvalTopK.FlattenMembers | eval_topk.py:32-38 | a query is emitted exactly when some document lists a kept question that trims to it |
| EvalTopK.FlattenWellFormed | eval_topk.py:36-37 | every emitted question is non-empty and trimmed, and every expected id is trimmed |
| EvalTopK.AppendQueries | eval_topk.py:35-37 | the inner loop appends exactly the document's queries |
| EvalTopK.BuildQueries | eval_topk.py:32-38 | the nested loop returns exactly the flattening of the groundtruth |
| VectorStore.Empty | eval_topk.py:53 | `df.empty`: no rows or no columns, as at eval_top1.py line 35. `NormalizeNothing` and `RetrievedIdNothing` show an empty table gives nothing |
| VectorStore.Cell | eval_topk.py:59-64 | `row.get(col)`, with `None` for a column the row lacks. `FlattenedDocIdWins` and `RowWithoutIdDegrades` use it on concrete rows |
| EvalTopK.RowCandidate | eval_topk.py:57-70 | the `candidate` of one row. `RowIdentifierIsFirstCandidate` proves it the first of `doc_id`, `id` and the metadata keys that is present and usable |
| EvalTopK.RowDistance | eval_topk.py:73-80 | the distance of one row: `None` without a `distance` column or when `float()` raises |
| EvalTopK.ItemCandidate | eval_topk.py:86-105 | the `cand` of one item. `ItemIdentifierIsFirstCandidate` proves that metadata keys outrank position 0 and that a non-sequence is its own text |
| EvalTopK.ItemDistance | eval_topk.py:97-102 | the distance of one item: the converted last field of an item with five or more fields, else `None` |
| EvalTopK.Identifier | eval_topk.py:71 | an id is present exactly when a candidate was found, and it is trimmed |
| EvalTopK.Normalize | eval_topk.py:40-111 | ids and distances have equal length, at most `top_k` of them for `top_k >= 0` |
| EvalTopK.FrameRanked | eval_topk.py:56-80 | one id and one distance per row of `head(top_k)` |
| EvalTopK.ListRanked | eval_topk.py:85-107 | one id and one distance per item of `list(results)[:top_k]` |
| EvalTopK.NormalizeStripped | eval_topk.py:71 | every resolved id, from a row or from an item, is trimmed |
| EvalTopK.NormalizeNothing | eval_topk.py:48-54 | `None`, an empty DataFrame and an unrecognised container give two empty lists |
| EvalTopK.NormalizeKeepsOrder | eval_topk.py:55-107 | the i-th id and distance come from the i-th row or item: the store's order is kept |
| EvalTopK.FirstPresentIsHead | eval_topk.py:67-70 | the metadata key loop returns the first of the usable key values in key order |
| EvalTopK.RowIdentifierIsFirstCandidate | eval_topk.py:57-71 | a row's id is the first available of `doc_id`, `id` and metadata (`doc_id`, `docId`, `id`), trimmed |
| EvalTopK.ItemIdentifierIsFirstCandidate | eval_topk.py:88-106 | an item's id is the first available of the metadata keys and position 0, trimmed; a non-sequence item is its own text |
| EvalTopK.FlattenedDocIdWins | eval_topk.py:57-60 | a flattened `doc_id` column outranks the metadata dict |
| EvalTopK.MetadataOverridesPosition0 | eval_topk.py:90-96 | in a result tuple a usable metadata id overrides `item[0]` |
| EvalTopK.RowWithoutIdDegrades | eval_topk.py:58-71 | a row with no `doc_id`, `id` or `metadata` column yields `None` |
| EvalTopK.ReadRow | eval_topk.py:57-80 | the loop body for one row computes the specified candidate and distance |
| EvalTopK.ReadItem | eval_topk.py:86-105 | the loop body for one item computes the specified candidate and distance (a distance only for five or more fields) |
| EvalTopK.ExtractFromFrame | eval_topk.py:52-81 | the row loop returns exactly one id and one distance per kept row, in order |
| EvalTopK.ExtractFromList | eval_topk.py:84-108 | the item loop returns exactly one id and one distance per kept item, in order |
| EvalTopK.ExtractIdsAndDistances | eval_topk.py:40-111 | the extraction returns exactly the normalised ranking |
| EvalTopK.MaxK | eval_topk.py:119 | `max(ks)` is one of the ks and no k exceeds it |
| EvalTopK.HitAt | eval_topk.py:137-138 | `(expected in ids[:k]) if ids[:k] else False`. `HitMonotone` and `HitIffRank` show it is monotone in k and holds exactly when the rank is at most k |
| EvalTopK.FirstIndex | eval_topk.py:144-150 | `ids.index(expected)` is absent exactly when the id does not occur; otherwise it points at the first occurrence |
| EvalTopK.HitMonotone | eval_topk.py:136-138 | Hit@K is monotone for `0 <= k1 <= k2`: a hit within `k1` is a hit within `k2`. A negative `k` counts from the end in `ids[:k]`, where this does not hold |
| EvalTopK.RankIsFirstOccurrence | eval_topk.py:141-150 | the rank is `None` exactly when the expected id is absent; otherwise it is 1 plus the index of its first occurrence |
| EvalTopK.HitIffRank | eval_topk.py:134-150 | Hit@K holds exactly when the rank exists and is at most K |
| EvalTopK.ScoreValid | eval_topk.py:134-161 | every record has as many ids as distances and one hit flag per k; `rr` lies in [0, 1], `rr == 0` exactly when there is no rank, and otherwise `rr == 1/rank` |
| EvalTopK.QueryRecordValid | eval_topk.py:126-161 | every record of the loop satisfies the record invariants and holds at most `max(ks)` ids |
| EvalTopK.RecordHits | eval_topk.py:134-150 | a record's `hit@k` agrees with its rank and is monotone in k |
| EvalTopK.SearchFailureIsolated | eval_topk.py:126-132 | a search that raises gives no ids, no rank, rr 0 and every hit false |
| EvalTopK.SecondPlaceExample | eval_topk.py:134-150 | ids D2, D1, D3 for expected D1 give rank 2, rr 0.5, no hit at 1 and a hit at 3 |
| EvalTopK.Score | eval_topk.py:134-150 | the record built from the ranked ids. `ScoreValid` and `HitIffRank` prove its rank, `rr` and hit flags consistent |
| EvalTopK.QueryRecord | eval_topk.py:122-161 | the record of one query, an empty ranking when `search` raises. `QueryRecordValid` and `SearchFailureIsolated` describe it |
| EvalTopK.HitFlags | eval_topk.py:135-138 | the `hits` loop builds one flag per configured k, each the Hit@K of the ids |
| EvalTopK.ScoreRanked | eval_topk.py:134-161 | the rank and reciprocal-rank code builds exactly the specified record |
| EvalTopK.EvaluateQuery | eval_topk.py:122-161 | one loop iteration produces exactly the specified record for its query |
| EvalTopK.EvaluateQueries | eval_topk.py:120-168 | one record per query, in query order |
| EvalTopK.RunEvaluation | eval_topk.py:113-168 | shuffles the caller's list in place when sampling, and returns one record per sampled query, in order |
| EvalTopK.CountWithKey | eval_topk.py:174 | no more records hold a `hit@k` cell than there are records |
| EvalTopK.CountHits | eval_topk.py:174 | no more hits than records holding the column |
| EvalTopK.HitRate | eval_topk.py:174 | the mean of a `hit@k` column lies in [0, 1] |
| EvalTopK.Mrr | eval_topk.py:175 | the mean of the reciprocal ranks, 0 for no records. `MrrBounds` keeps it in [0, 1] |
| EvalTopK.AvgRankOfHits | eval_topk.py:176-178 | the mean of the present ranks, `None` when there are none. `AvgRankBounds` keeps it in [1, bound] |
| EvalTopK.ComputeMetricsAsWritten | eval_topk.py:170-179 | `compute_metrics` as written: `KeyError("rank_of_expected")` on no records (see `EmptyRunRaises`) |
| EvalTopK.ComputeMetrics | eval_topk.py:170-179 | `compute_metrics` with the empty run handled. `RunMetricsBounds` bounds all its metrics |
| EvalTopK.EmptyRunRaises | eval_topk.py:170-179 | as written, an empty run raises `KeyError("rank_of_expected")`; the corrected metrics give 0 for every rate and no mean rank |
| EvalTopK.SumRRBounds | eval_topk.py:175 | the reciprocal ranks sum to between 0 and the number of records |
| EvalTopK.MrrBounds | eval_topk.py:175 | MRR lies in [0, 1] |
| EvalTopK.RankSumBounds | eval_topk.py:176-178 | the ranks of hits sum to between their count and `bound` times their count |
| EvalTopK.AvgRankBounds | eval_topk.py:176-178 | the mean rank of hits lies in [1, bound] |
| EvalTopK.CountWithKeyAll | eval_topk.py:174 | when every record holds the column, its mean is over all records |
| EvalTopK.CountHitsMonotone | eval_topk.py:174 | monotone per-record hits give monotone hit counts |
| EvalTopK.RunHitRates | eval_topk.py:173-174 | over a run, Hit@K is hits divided by queries, and it does not decrease as K grows |
| EvalTopK.RunMetricsBounds | eval_topk.py:170-179 | over a run, every Hit@K and the MRR lie in [0, 1], and the mean rank of hits lies in [1, `max(ks)`] whenever `max(ks)` is not negative |
| EvalTop1.Unstrippable | eval_top1.py:22 | a question that passes `if q` but has no `strip()`: truthy and not a string |
| EvalTop1.Strippable | eval_top1.py:21-22 | no question of a list makes `q.strip()` raise. `StrippableIff` turns it into a statement about every question |
| EvalTop1.AllStrippable | eval_top1.py:20-22 | no question of the groundtruth makes `q.strip()` raise. `AllStrippableIff` turns it into a statement about every question |
| EvalTop1.StrippableIff | eval_top1.py:21-22 | a question list can be stripped throughout exactly when none of its questions is truthy and not a string |
| EvalTop1.AllStrippableIff | eval_top1.py:20-22 | the same over every document of the groundtruth |
| EvalTop1.AppendQueries | eval_top1.py:21-23 | the inner loop raises `AttributeError` exactly when a question cannot be stripped; otherwise it appends exactly the document's queries |
| EvalTop1.BuildQueries | eval_top1.py:18-24 | `build_queries` raises exactly when some truthy question is not a string; otherwise it returns the same queries as the top-K evaluator |
| EvalTop1.FirstRowId | eval_top1.py:37-56 | the id read from the first row: `doc_id` as it is (stripped only when it is a string), else a non-null `id` as trimmed text, else the metadata `doc_id` |
| EvalTop1.FirstItemId | eval_top1.py:60-70 | the id read from the first tuple: a non-`None` `first[0]` as trimmed text, else the metadata `doc_id`; `IndexError` on an empty tuple |
| EvalTop1.RetrievedId | eval_top1.py:26-71 | `extract_retrieved_id`. The lemmas below show it reads only the first result, fails only on an empty first tuple, and agrees with or differs from the top-K extraction |
| EvalTop1.RetrievedIdReadsFirstOnly | eval_top1.py:26-71 | only the first row or item is read: dropping the others changes nothing |
| EvalTop1.RetrievedIdFailsOnlyOnEmptyFirstItem | eval_top1.py:59-64 | extraction raises exactly when the result list starts with an empty list or tuple, and then with `IndexError` |
| EvalTop1.RetrievedIdNothing | eval_top1.py:31-36 | `None`, an empty table, an empty list, a non-sequence first item and an unrecognised container give `None` |
| EvalTop1.IdColumnAgreesWithTopK | eval_top1.py:40-46 | with an `id` column, no `doc_id` column and a non-null id, the top-1 id is the top-K evaluator's first id |
| EvalTop1.TupleAgreesWithTopK | eval_top1.py:62-66 | with a non-null `first[0]` and no usable metadata id, the top-1 id is the top-K evaluator's first id |
| EvalTop1.MetadataPriorityDiffers | eval_top1.py:62-70 | a tuple with a chunk id at position 0 and metadata `doc_id` D1 gives the chunk id in top-1 but D1 in top-K |
| EvalTop1.NullDocIdDiffers | eval_top1.py:40-42 | a NaN `doc_id` cell is returned as NaN by top-1, while top-K falls through to the `id` column |
| EvalTop1.FirstDistance | eval_top1.py:92-95 | the first row's `distance` cell, raw, for a non-empty table with that column; `None` for every other result |
| EvalTop1.Judge | eval_top1.py:83-105 | the record of one query given what `search` did. `CorrectIffExpected` says when it is correct |
| EvalTop1.Records | eval_top1.py:78-108 | the records of a run, or the first extraction error. `RecordsSpec` and `RecordsErrorEscapes` describe it |
| EvalTop1.CorrectIffExpected | eval_top1.py:83-97 | a query is correct exactly when the search returned and the extracted id equals the expected id; a raised search is never correct |
| EvalTop1.RecordsSpec | eval_top1.py:78-105 | the run fails exactly when some query's extraction fails; otherwise there is one record per query, in order |
| EvalTop1.JudgeQuery | eval_top1.py:80-105 | one loop iteration produces the specified record, or the extraction error |
| EvalTop1.RecordsErrorEscapes | eval_top1.py:89-90 | an extraction error ends the run with that error |
| EvalTop1.JudgeQueries | eval_top1.py:78-105 | the record loop returns exactly the specified records or the first error |
| EvalTop1.RunEvaluation | eval_top1.py:73-110 | shuffles the caller's list in place when sampling, then judges each sampled query with `limit=1` |
| EvalTop1.EffectiveSampleSize | eval_top1.py:117-120 | the `sample_size` that `main` passes on. `EffectiveSampleSizeCovers` shows it evaluates every query when none is configured |
| EvalTop1.EffectiveSampleSizeCovers | eval_top1.py:117-123 | without a configured size, `main` evaluates every query, in shuffled order when there are any; a configured size is passed on unchanged |
| EvalTop1.CorrectCount | eval_top1.py:127 | no more correct records than records |
| EvalTop1.Accuracy | eval_top1.py:126-128 | accuracy lies in [0, 1] |
| EvalTop1.CorrectCountExtremes | eval_top1.py:127 | all records are correct exactly when the count is the total; none are correct exactly when it is 0 |
| EvalTop1.AccuracyAsWritten | eval_top1.py:126-128 | the accuracy as written: `KeyError("correct")` on no records (see `EmptyRunRaises`) |
| EvalTop1.AccuracyExtremes | eval_top1.py:126-128 | accuracy is 1 exactly when a non-empty run is all correct, and 0 exactly when no record is correct |
| EvalTop1.EmptyRunRaises | eval_top1.py:126-128 | as written, an empty run raises `KeyError("correct")`; on every non-empty run the written and the corrected accuracy agree |

The two scripts read identifiers differently, and the model keeps both
readings:

- For a result tuple, `eval_topk.py:90-96` lets a usable metadata id
  override `item[0]`, while `eval_top1.py:64-70` returns `first[0]` whenever
  it is not `None` (`MetadataPriorityDiffers`).
- For a table row, `eval_topk.py:59` skips a null `doc_id` cell, while
  `eval_top1.py:40-42` returns it as it is (`NullDocIdDiffers`).

## Left out

- The vector store (embedding, indexing, the database query) is a function
  parameter `(question, limit) -> Raised | Returned(result)`. It is assumed
  deterministic for a given question and limit.
- The Mersenne Twister that turns the seed into `randbelow` values is not
  modelled. The values are a parameter `draws`, one per shuffle step, each
  within its bound.
- Timestamps, progress printing, and the JSON and CSV file I/O in `main` are
  not modelled. `SAMPLE_SIZE`, `SEED` and `KS` are parameters.
- Distances keep the raw cell whose `float()` succeeded. Float conversion,
  rounding and NaN arithmetic are not modelled.
- A `VFloat` holds the text `repr()` gives for a float (`0.0`, `1.5`, `nan`,
  `inf`); that text is assumed canonical, not checked. `Truthy` and `NotNA`
  read it as such, so a non-canonical text such as `0` or `1.50` stands for no
  float.
- Means are real divisions of natural-number counts, not floating-point sums.
- pandas is reduced to a column list and rows as maps. `iterrows`, `head`,
  `notna` and `mean` follow that representation.
- A row is not required to hold every column of its frame, and a missing
  cell reads as `None`. This simplifies pandas: `iterrows` gives every row
  every column, and a value missing from the source records is NaN there.
  On the top-1 path a missing `doc_id` is then returned as `None` instead of
  NaN. Neither equals the expected id, so the query is judged incorrect either
  way. On the top-k path `notna` rejects both. Each cell also keeps its own
  type, whereas `iterrows` and `iloc` upcast a row to one common dtype, so an
  int `id` beside a float `distance` would print as `5.0` in pandas and `5`
  here.
- Dicts are association lists, and duplicate keys, which a Python dict cannot
  hold, are not excluded. A lookup reads the first entry with the key.
- `pd.notna` is modelled for scalar cells only. A list-valued cell, which
  makes `notna` return an array, is out of scope.
- `repr` does not escape non-ASCII non-printable characters, and objects print
  as their given text. `float()` does not accept underscores or non-ASCII
  digits.
- Question lists are lists. A groundtruth value that is a string, and would
  be iterated character by character, is not modelled.
- `EvalTopK.RunEvaluation` requires a non-empty `ks`. With an empty one,
  `max(ks)` raises before any query is evaluated.
- Tuples and lists are treated alike, as the code does with
  `isinstance(x, (list, tuple))`.
- `EvalTop1.Judge` compares the retrieved value with the expected string by
  value. An object whose `__eq__` accepts a string is not modelled.
- `app/services/synthesizer.py`, `app/config/settings.py` and
  `app/utils/search_logger.py` are not part of this model. Neither are the
  plotting scripts `visua.py` and `visua_distribution.py`.

## Findings

| source | as written | input that shows it | evidently intended | confidence | as-written member | corrected member |
|---|---|---|---|---|---|---|
| eval_topk.py:177 | `compute_metrics` guards `hit@k` and `reciprocal_rank` against a missing column but reads `df["rank_of_expected"]` unguarded | no queries to evaluate (an empty groundtruth, or every question blank): `pd.DataFrame([])` has no columns and the read raises `KeyError` | every rate 0.0 and no mean rank, as the other guards do | high; not executed | EvalTopK.EmptyRunRaises | EvalTopK.RunMetricsBounds |
| eval_top1.py:127-128 | `df_results["correct"].sum()` is read before the `total > 0` guard | no queries to evaluate: the empty DataFrame has no `correct` column, so `KeyError` is raised and the `else 0.0` branch is unreachable | accuracy 0.0 for an empty run | high; not executed | EvalTop1.EmptyRunRaises | EvalTop1.AccuracyExtremes |
