/** The top-K retrieval evaluator: flattens the groundtruth into queries,
    samples them, asks the vector store for `max(ks)` results per query,
    normalises whatever container comes back into ranked identifiers and
    distances, scores Hit@K, rank and reciprocal rank per query, and
    averages the scores over the run. */
module EvalTopK {
  import opened Wrappers
  import opened PyText
  import opened PyValues
  import opened VectorStore
  import opened Sampler

  // ================================================================ queries

  /** `f(xs[0]) + f(xs[1]) + ...`: the list a nested append loop builds. */
  function FlatMap<A, B>(f: A -> seq<B>, xs: seq<A>): seq<B> {
    if xs == [] then [] else FlatMap(f, xs[..|xs| - 1]) + f(xs[|xs| - 1])
  }

  lemma {:induction false} FlatMapAppend<A, B>(f: A -> seq<B>, xs: seq<A>, ys: seq<A>)
    ensures FlatMap(f, xs + ys) == FlatMap(f, xs) + FlatMap(f, ys)
    decreases |ys|
  {
    if ys == [] {
      assert xs + ys == xs;
    } else {
      var zs := xs + ys;
      assert zs[..|zs| - 1] == xs + ys[..|ys| - 1];
      assert zs[|zs| - 1] == ys[|ys| - 1];
      FlatMapAppend(f, xs, ys[..|ys| - 1]);
    }
  }

  lemma {:induction false} FlatMapMembers<A, B>(f: A -> seq<B>, xs: seq<A>, y: B)
    ensures y in FlatMap(f, xs) <==> exists i :: 0 <= i < |xs| && y in f(xs[i])
    decreases |xs|
  {
    if xs != [] {
      var init := xs[..|xs| - 1];
      FlatMapMembers(f, init, y);
      if y in FlatMap(f, init) {
        var i :| 0 <= i < |init| && y in f(init[i]);
        assert xs[i] == init[i];
      }
      if exists i :: 0 <= i < |xs| && y in f(xs[i]) {
        var i :| 0 <= i < |xs| && y in f(xs[i]);
        if i < |init| {
          assert init[i] == xs[i];
        }
      }
    }
  }

  /** One groundtruth question and the document that answers it. */
  datatype Query = Query(question: string, expectedDocId: string)

  /** The loaded groundtruth: document id to its questions, in file order. */
  type Groundtruth = seq<(string, seq<Value>)>

  /** `q and str(q).strip()`: the question is kept. */
  predicate Kept(q: Value) {
    Truthy(q) && StrStrip(q) != []
  }

  /** The query a kept question becomes. */
  function QueryFor(docId: string, q: Value): Query {
    Query(StrStrip(q), Strip(docId))
  }

  /** The query `q` contributes for `docId`: one when it is kept, none otherwise. */
  function Emitted(docId: string, q: Value): (r: seq<Query>)
    ensures r == [] || r == [QueryFor(docId, q)]
  {
    if Kept(q) then [QueryFor(docId, q)] else []
  }

  function EmittedFor(docId: string): Value -> seq<Query> {
    q => Emitted(docId, q)
  }

  /** The queries one document contributes, in list order. */
  function QueriesOf(docId: string, qs: seq<Value>): seq<Query> {
    FlatMap(EmittedFor(docId), qs)
  }

  function DocQueries(entry: (string, seq<Value>)): seq<Query> {
    QueriesOf(entry.0, entry.1)
  }

  /** `build_queries(gt)`: every kept question of every document, documents
      in mapping order and questions in list order. */
  function Flatten(gt: Groundtruth): seq<Query> {
    FlatMap(DocQueries, gt)
  }

  /** A string question is dropped exactly when it is empty or blank. */
  lemma KeptStringIff(s: string)
    ensures Kept(VStr(s)) <==> !AllSpace(s)
  {
    if s == [] {
      assert !Truthy(VStr(s));
    }
  }

  /** Output order follows mapping order, then list order: flattening two
      halves and concatenating gives the flattening of the whole. */
  lemma FlattenAppend(g1: Groundtruth, g2: Groundtruth)
    ensures Flatten(g1 + g2) == Flatten(g1) + Flatten(g2)
  {
    FlatMapAppend(DocQueries, g1, g2);
  }

  lemma QueriesOfAppend(docId: string, a: seq<Value>, b: seq<Value>)
    ensures QueriesOf(docId, a + b) == QueriesOf(docId, a) + QueriesOf(docId, b)
  {
    FlatMapAppend(EmittedFor(docId), a, b);
  }

  lemma QueriesOfMembers(docId: string, qs: seq<Value>, r: Query)
    ensures r in QueriesOf(docId, qs) <==>
            exists j :: 0 <= j < |qs| && Kept(qs[j]) && r == QueryFor(docId, qs[j])
  {
    FlatMapMembers(EmittedFor(docId), qs, r);
    if r in QueriesOf(docId, qs) {
      var j :| 0 <= j < |qs| && r in EmittedFor(docId)(qs[j]);
      assert Kept(qs[j]) && r == QueryFor(docId, qs[j]);
    }
    if exists j :: 0 <= j < |qs| && Kept(qs[j]) && r == QueryFor(docId, qs[j]) {
      var j :| 0 <= j < |qs| && Kept(qs[j]) && r == QueryFor(docId, qs[j]);
      assert r in EmittedFor(docId)(qs[j]);
    }
  }

  /** A query is emitted exactly when some document lists a kept question
      that trims to it. */
  lemma FlattenMembers(gt: Groundtruth, r: Query)
    ensures r in Flatten(gt) <==>
            exists i, j :: 0 <= i < |gt| && 0 <= j < |gt[i].1| && Kept(gt[i].1[j])
                           && r == QueryFor(gt[i].0, gt[i].1[j])
  {
    FlatMapMembers(DocQueries, gt, r);
    if r in Flatten(gt) {
      var i :| 0 <= i < |gt| && r in DocQueries(gt[i]);
      QueriesOfMembers(gt[i].0, gt[i].1, r);
    }
    if exists i, j :: 0 <= i < |gt| && 0 <= j < |gt[i].1| && Kept(gt[i].1[j])
                      && r == QueryFor(gt[i].0, gt[i].1[j]) {
      var i, j :| 0 <= i < |gt| && 0 <= j < |gt[i].1| && Kept(gt[i].1[j])
                  && r == QueryFor(gt[i].0, gt[i].1[j]);
      QueriesOfMembers(gt[i].0, gt[i].1, r);
      assert r in DocQueries(gt[i]);
    }
  }

  /** Every emitted query has a non-empty trimmed question and a trimmed
      expected id. */
  lemma FlattenWellFormed(gt: Groundtruth)
    ensures forall r :: r in Flatten(gt) ==>
              r.question != [] && Stripped(r.question) && Stripped(r.expectedDocId)
  {
    forall r | r in Flatten(gt)
      ensures r.question != [] && Stripped(r.question) && Stripped(r.expectedDocId)
    {
      FlattenMembers(gt, r);
    }
  }

  /** One more question extends a document's queries by what it emits. */
  lemma QueriesOfStep(docId: string, qs: seq<Value>, j: nat)
    requires j < |qs|
    ensures QueriesOf(docId, qs[..j + 1]) == QueriesOf(docId, qs[..j]) + Emitted(docId, qs[j])
  {
    assert qs[..j + 1][..j] == qs[..j];
  }

  /** One more document extends the flattening by its queries. */
  lemma FlattenStep(gt: Groundtruth, i: nat)
    requires i < |gt|
    ensures Flatten(gt[..i + 1]) == Flatten(gt[..i]) + QueriesOf(gt[i].0, gt[i].1)
  {
    assert gt[..i + 1][..i] == gt[..i];
  }

  /** The inner loop of `build_queries`: appends the queries of one
      document's question list, in list order. */
  method AppendQueries(queries: seq<Query>, docId: string, qlist: seq<Value>)
    returns (out: seq<Query>)
    ensures out == queries + QueriesOf(docId, qlist)
  {
    out := queries;
    var j := 0;
    while j < |qlist|
      invariant 0 <= j <= |qlist|
      invariant out == queries + QueriesOf(docId, qlist[..j])
    {
      QueriesOfStep(docId, qlist, j);
      var q := qlist[j];
      if Truthy(q) && StrStrip(q) != [] {
        out := out + [Query(StrStrip(q), Strip(docId))];
      }
      j := j + 1;
    }
    assert qlist[..j] == qlist;
  }

  /** `build_queries`: appends to `queries` in the nested loop over the
      mapping and each question list. */
  method BuildQueries(gt: Groundtruth) returns (queries: seq<Query>)
    ensures queries == Flatten(gt)
  {
    queries := [];
    var i := 0;
    while i < |gt|
      invariant 0 <= i <= |gt|
      invariant queries == Flatten(gt[..i])
    {
      var (docId, qlist) := gt[i];
      queries := AppendQueries(queries, docId, qlist);
      FlattenStep(gt, i);
      i := i + 1;
    }
    assert gt[..i] == gt;
  }

  // ============================================================ normaliser

  /** The metadata keys that may carry a document id, in the order tried. */
  const IdKeys: seq<string> := ["doc_id", "docId", "id"]

  /** `candidate` for one DataFrame row: a non-null `doc_id` column, else a
      non-null `id` column, else the first usable metadata key. */
  function RowCandidate(columns: seq<string>, row: Row): Option<Value> {
    if "doc_id" in columns && NotNA(Cell(row, "doc_id")) then Some(Cell(row, "doc_id"))
    else if "id" in columns && NotNA(Cell(row, "id")) then Some(Cell(row, "id"))
    else if "metadata" in columns && Cell(row, "metadata").VDict? then
      FirstPresent(Cell(row, "metadata").entries, IdKeys)
    else None
  }

  /** `float(row.get("distance"))` when the column exists, `None` when it
      does not or the conversion raises. */
  function RowDistance(columns: seq<string>, row: Row): Option<Value> {
    if "distance" in columns then FloatOrNone(Cell(row, "distance")) else None
  }

  /** `cand` for one item of a result list: a non-null `item[0]`, overridden
      by the first usable metadata key of a dict `item[1]`; an item that is
      not a list or tuple stands for its own text. */
  function ItemCandidate(item: Value): Option<Value> {
    if IsSequence(item) then
      var xs := item.items;
      var meta := if |xs| > 1 && xs[1].VDict? then FirstPresent(xs[1].entries, IdKeys) else None;
      if meta.Some? then meta
      else if |xs| > 0 && xs[0] != VNone then Some(xs[0])
      else None
    else Some(VStr(Str(item)))
  }

  /** `float(item[-1])` for a list or tuple of at least five fields. */
  function ItemDistance(item: Value): Option<Value> {
    if IsSequence(item) && |item.items| >= 5 then FloatOrNone(item.items[|item.items| - 1])
    else None
  }

  /** `str(cand).strip() if cand is not None else None`. */
  function Identifier(candidate: Option<Value>): (id: Option<string>)
    ensures id.Some? <==> candidate.Some?
    ensures id.Some? ==> Stripped(id.value)
  {
    if candidate.Some? then Some(StrStrip(candidate.value)) else None
  }

  /** The identifiers and distances of the retrieved results, in the order
      the store ranked them. */
  datatype Ranked = Ranked(ids: seq<Option<string>>, dists: seq<Option<Value>>)

  /** `extract_ids_and_distances(results, top_k)`. */
  function Normalize(results: SearchResult, topK: int): (r: Ranked)
    ensures |r.ids| == |r.dists|
    ensures topK >= 0 ==> |r.ids| <= topK
  {
    match results
    case NoResult => Ranked([], [])
    case Frame(df) => if Empty(df) then Ranked([], []) else FrameRanked(df.columns, Take(df.rows, topK))
    case Listed(items) => ListRanked(Take(items, topK))
    case Unrecognised => Ranked([], [])
  }

  /** One identifier and one distance per row. */
  function FrameRanked(columns: seq<string>, rows: seq<Row>): (r: Ranked)
    ensures |r.ids| == |rows| && |r.dists| == |rows|
  {
    Ranked(seq(|rows|, k requires 0 <= k < |rows| => Identifier(RowCandidate(columns, rows[k]))),
           seq(|rows|, k requires 0 <= k < |rows| => RowDistance(columns, rows[k])))
  }

  /** One identifier and one distance per item. */
  function ListRanked(xs: seq<Value>): (r: Ranked)
    ensures |r.ids| == |xs| && |r.dists| == |xs|
  {
    Ranked(seq(|xs|, k requires 0 <= k < |xs| => Identifier(ItemCandidate(xs[k]))),
           seq(|xs|, k requires 0 <= k < |xs| => ItemDistance(xs[k])))
  }

  /** Every resolved identifier is trimmed. */
  lemma NormalizeStripped(results: SearchResult, topK: int)
    ensures var ids := Normalize(results, topK).ids;
            forall k :: 0 <= k < |ids| && ids[k].Some? ==> Stripped(ids[k].value)
  {
  }

  /** No results, an empty frame and an unrecognised container all give two
      empty lists. */
  lemma NormalizeNothing(results: SearchResult, topK: int)
    requires results.NoResult? || results.Unrecognised? || (results.Frame? && Empty(results.df))
    ensures Normalize(results, topK) == Ranked([], [])
  {
  }

  /** The i-th identifier and distance come from the i-th row or item: the
      normaliser keeps the store's order and never re-sorts. */
  lemma NormalizeKeepsOrder(results: SearchResult, topK: int, k: nat)
    requires k < |Normalize(results, topK).ids|
    ensures results.Frame? || results.Listed?
    ensures results.Frame? ==>
              && k < |results.df.rows|
              && Normalize(results, topK).ids[k]
                 == Identifier(RowCandidate(results.df.columns, results.df.rows[k]))
              && Normalize(results, topK).dists[k]
                 == RowDistance(results.df.columns, results.df.rows[k])
    ensures results.Listed? ==>
              && k < |results.items|
              && Normalize(results, topK).ids[k] == Identifier(ItemCandidate(results.items[k]))
              && Normalize(results, topK).dists[k] == ItemDistance(results.items[k])
  {
  }

  // --- the priority rules, restated as candidate lists

  /** The values of `keys` that `d` holds with a value other than `None`, in
      key order. */
  function MetaCandidates(entries: seq<(string, Value)>, keys: seq<string>): seq<Value> {
    if keys == [] then []
    else (if Usable(entries, keys[0]) then [Lookup(entries, keys[0]).value] else [])
         + MetaCandidates(entries, keys[1..])
  }

  /** Every identifier source a row offers, highest priority first. */
  function RowCandidates(columns: seq<string>, row: Row): seq<Value> {
    (if "doc_id" in columns && NotNA(Cell(row, "doc_id")) then [Cell(row, "doc_id")] else [])
    + (if "id" in columns && NotNA(Cell(row, "id")) then [Cell(row, "id")] else [])
    + (if "metadata" in columns && Cell(row, "metadata").VDict?
       then MetaCandidates(Cell(row, "metadata").entries, IdKeys) else [])
  }

  /** Every identifier source a list item offers, highest priority first:
      metadata keys before position 0. */
  function ItemCandidates(item: Value): seq<Value> {
    if IsSequence(item) then
      var xs := item.items;
      (if |xs| > 1 && xs[1].VDict? then MetaCandidates(xs[1].entries, IdKeys) else [])
      + (if |xs| > 0 && xs[0] != VNone then [xs[0]] else [])
    else [VStr(Str(item))]
  }

  function Head(s: seq<Value>): Option<Value> {
    if s == [] then None else Some(s[0])
  }

  lemma {:induction false} FirstPresentIsHead(entries: seq<(string, Value)>, keys: seq<string>)
    ensures FirstPresent(entries, keys) == Head(MetaCandidates(entries, keys))
    decreases |keys|
  {
    if keys != [] && !Usable(entries, keys[0]) {
      FirstPresentIsHead(entries, keys[1..]);
    }
  }

  /** A table row's identifier is the first of its candidates, trimmed, and
      `None` when it has none. */
  lemma RowIdentifierIsFirstCandidate(columns: seq<string>, row: Row)
    ensures Identifier(RowCandidate(columns, row)) == Identifier(Head(RowCandidates(columns, row)))
  {
    var meta := Cell(row, "metadata");
    if meta.VDict? {
      FirstPresentIsHead(meta.entries, IdKeys);
    }
  }

  /** A list item's identifier is the first of its candidates, trimmed. */
  lemma ItemIdentifierIsFirstCandidate(item: Value)
    ensures Identifier(ItemCandidate(item)) == Identifier(Head(ItemCandidates(item)))
  {
    if IsSequence(item) && |item.items| > 1 && item.items[1].VDict? {
      FirstPresentIsHead(item.items[1].entries, IdKeys);
    }
  }

  /** A flattened `doc_id` column outranks the nested metadata: a row whose
      `doc_id` is "doc42" and whose metadata says "other" resolves to "doc42". */
  lemma FlattenedDocIdWins(other: Value)
    ensures
      var row := map["doc_id" := VStr("doc42"), "metadata" := VDict([("doc_id", other)])];
      Identifier(RowCandidate(["doc_id", "metadata"], row)) == Some("doc42")
  {
    StripStripped("doc42");
  }

  /** In a result tuple the metadata id overrides position 0. */
  lemma MetadataOverridesPosition0(first: Value, metaId: Value, rest: seq<Value>)
    requires metaId != VNone
    ensures ItemCandidate(VTuple([first, VDict([("doc_id", metaId)])] + rest)) == Some(metaId)
  {
  }

  /** A row without any identifier-bearing field degrades to `None`. */
  lemma RowWithoutIdDegrades(columns: seq<string>, row: Row)
    requires "doc_id" !in columns && "id" !in columns && "metadata" !in columns
    ensures Identifier(RowCandidate(columns, row)) == None
  {
  }

  /** The body of the DataFrame loop for one row: the id candidate in
      priority order and the converted distance. */
  method ReadRow(columns: seq<string>, row: Row) returns (candidate: Option<Value>, dist: Option<Value>)
    ensures candidate == RowCandidate(columns, row)
    ensures dist == RowDistance(columns, row)
  {
    candidate := None;
    if "doc_id" in columns && NotNA(Cell(row, "doc_id")) {
      candidate := Some(Cell(row, "doc_id"));
    } else if "id" in columns && NotNA(Cell(row, "id")) {
      candidate := Some(Cell(row, "id"));
    } else if "metadata" in columns {
      var meta := Cell(row, "metadata");
      if meta.VDict? {
        candidate := FirstPresent(meta.entries, IdKeys);
      }
    }
    if "distance" in columns {
      dist := FloatOrNone(Cell(row, "distance"));
    } else {
      dist := None;
    }
  }

  /** The body of the list loop for one item: position 0, overridden by a
      metadata id, and the last field as distance for five or more fields. */
  method ReadItem(item: Value) returns (candidate: Option<Value>, dist: Option<Value>)
    ensures candidate == ItemCandidate(item)
    ensures dist == ItemDistance(item)
  {
    candidate, dist := None, None;
    if IsSequence(item) {
      var fields := item.items;
      if |fields| > 0 && fields[0] != VNone {
        candidate := Some(fields[0]);
      }
      if |fields| > 1 && fields[1].VDict? {
        var meta := FirstPresent(fields[1].entries, IdKeys);
        if meta.Some? {
          candidate := meta;
        }
      }
      if |fields| >= 5 {
        dist := FloatOrNone(fields[|fields| - 1]);
      }
    } else {
      candidate := Some(VStr(Str(item)));
    }
  }

  /** The DataFrame branch of `extract_ids_and_distances`: one identifier
      and one distance per row of `results.head(top_k)`. */
  method ExtractFromFrame(df: DataFrame, topK: int)
    returns (ids: seq<Option<string>>, dists: seq<Option<Value>>)
    ensures Ranked(ids, dists) == FrameRanked(df.columns, Take(df.rows, topK))
  {
    ids, dists := [], [];
    var rows := Take(df.rows, topK);
    var i := 0;
    while i < |rows|
      invariant 0 <= i <= |rows|
      invariant |ids| == i && |dists| == i
      invariant ids == FrameRanked(df.columns, rows).ids[..i]
      invariant dists == FrameRanked(df.columns, rows).dists[..i]
    {
      var candidate, dist := ReadRow(df.columns, rows[i]);
      PrefixSnoc(FrameRanked(df.columns, rows).ids, i);
      PrefixSnoc(FrameRanked(df.columns, rows).dists, i);
      ids := ids + [Identifier(candidate)];
      dists := dists + [dist];
      i := i + 1;
    }
  }

  /** Growing a prefix of `s` by one element appends that element. */
  lemma PrefixSnoc<T>(s: seq<T>, i: nat)
    requires i < |s|
    ensures s[..i + 1] == s[..i] + [s[i]]
  {
  }

  /** The list/tuple branch of `extract_ids_and_distances`: one identifier
      and one distance per item of `list(results)[:top_k]`. */
  method ExtractFromList(items: seq<Value>, topK: int)
    returns (ids: seq<Option<string>>, dists: seq<Option<Value>>)
    ensures Ranked(ids, dists) == ListRanked(Take(items, topK))
  {
    ids, dists := [], [];
    var xs := Take(items, topK);
    var i := 0;
    while i < |xs|
      invariant 0 <= i <= |xs|
      invariant |ids| == i && |dists| == i
      invariant ids == ListRanked(xs).ids[..i]
      invariant dists == ListRanked(xs).dists[..i]
    {
      var candidate, dist := ReadItem(xs[i]);
      PrefixSnoc(ListRanked(xs).ids, i);
      PrefixSnoc(ListRanked(xs).dists, i);
      ids := ids + [Identifier(candidate)];
      dists := dists + [dist];
      i := i + 1;
    }
  }

  /** `extract_ids_and_distances(results, top_k)`: dispatches on the
      container's shape; `None`, an empty frame and anything else give two
      empty lists. */
  method ExtractIdsAndDistances(results: SearchResult, topK: int)
    returns (ids: seq<Option<string>>, dists: seq<Option<Value>>)
    ensures Ranked(ids, dists) == Normalize(results, topK)
  {
    ids, dists := [], [];
    match results {
      case NoResult =>
      case Frame(df) =>
        if !Empty(df) {
          ids, dists := ExtractFromFrame(df, topK);
        }
      case Listed(items) =>
        ids, dists := ExtractFromList(items, topK);
      case Unrecognised =>
    }
  }

  // ============================================================= evaluator

  /** One row of the detailed report (the timestamp column is not modelled). */
  datatype EvalRecord = EvalRecord(
    question: string,
    expectedDocId: string,
    retrievedIds: seq<Option<string>>,
    retrievedDistances: seq<Option<Value>>,
    rank: Option<nat>,
    reciprocalRank: real,
    hits: map<int, bool>)

  /** `max(ks)`. */
  function MaxK(ks: seq<int>): (m: int)
    requires |ks| > 0
    ensures m in ks
    ensures forall k :: k in ks ==> k <= m
  {
    if |ks| == 1 then ks[0]
    else
      var rest := MaxK(ks[1..]);
      assert forall k :: k in ks ==> k == ks[0] || k in ks[1..];
      if ks[0] >= rest then ks[0] else rest
  }

  /** `s.index(x)`, or `None` where it raises `ValueError`. */
  function FirstIndex<T(==)>(s: seq<T>, x: T): (r: Option<nat>)
    ensures r.None? <==> x !in s
    ensures r.Some? ==> r.value < |s| && s[r.value] == x
                        && forall j :: 0 <= j < r.value ==> s[j] != x
  {
    if s == [] then None
    else if s[0] == x then Some(0)
    else
      var rest := FirstIndex(s[1..], x);
      if rest.None? then None else Some(rest.value + 1)
  }

  /** `(expected in ids[:k]) if ids[:k] else False`. */
  predicate HitAt(ids: seq<Option<string>>, expected: string, k: int) {
    var top := Take(ids, k);
    if top != [] then Some(expected) in top else false
  }

  /** The per-query scores computed from the ranked identifiers. */
  function Score(q: Query, ranked: Ranked, ks: seq<int>): EvalRecord {
    var idx := if ranked.ids != [] then FirstIndex(ranked.ids, Some(q.expectedDocId)) else None;
    EvalRecord(q.question, q.expectedDocId, ranked.ids, ranked.dists,
               if idx.Some? then Some(idx.value + 1) else None,
               if idx.Some? then 1.0 / ((idx.value + 1) as real) else 0.0,
               map k | k in ks :: HitAt(ranked.ids, q.expectedDocId, k))
  }

  /** The record `run_evaluation` appends for one query: a raised search
      becomes an empty result list. */
  function QueryRecord(search: Search, q: Query, ks: seq<int>): EvalRecord
    requires |ks| > 0
  {
    var maxK := MaxK(ks);
    var outcome := search(q.question, maxK);
    Score(q, if outcome.Raised? then Ranked([], []) else Normalize(outcome.result, maxK), ks)
  }

  /** The invariants of one evaluation record. */
  predicate ValidRecord(r: EvalRecord, ks: seq<int>) {
    && |r.retrievedIds| == |r.retrievedDistances|
    && r.hits.Keys == (set k | k in ks)
    && 0.0 <= r.reciprocalRank <= 1.0
    && (r.reciprocalRank == 0.0 <==> r.rank.None?)
    && (r.rank.Some? ==> 1 <= r.rank.value <= |r.retrievedIds|
                         && r.reciprocalRank == 1.0 / (r.rank.value as real))
  }

  /** Hit@K is monotone in K: a hit in the first `k1` results is a hit in
      the first `k2 >= k1`. */
  lemma HitMonotone(ids: seq<Option<string>>, expected: string, k1: int, k2: int)
    requires 0 <= k1 <= k2
    requires HitAt(ids, expected, k1)
    ensures HitAt(ids, expected, k2)
  {
    var t1, t2 := Take(ids, k1), Take(ids, k2);
    var j :| 0 <= j < |t1| && t1[j] == Some(expected);
    assert t2[j] == ids[j];
  }

  /** The rank is 1 + the index of the first occurrence of the expected id
      among the retrieved ids, and `None` exactly when it is absent. */
  lemma RankIsFirstOccurrence(q: Query, ranked: Ranked, ks: seq<int>)
    ensures Score(q, ranked, ks).rank.None? <==> Some(q.expectedDocId) !in ranked.ids
    ensures Score(q, ranked, ks).rank.Some? ==>
              var r := Score(q, ranked, ks).rank.value;
              1 <= r <= |ranked.ids| && ranked.ids[r - 1] == Some(q.expectedDocId)
              && forall j :: 0 <= j < r - 1 ==> ranked.ids[j] != Some(q.expectedDocId)
  {
  }

  /** Hit@K agrees with the rank: a hit in the first `k` exactly when the
      expected id is found at rank `k` or better. */
  lemma HitIffRank(q: Query, ranked: Ranked, ks: seq<int>, k: int)
    requires 0 <= k
    ensures HitAt(ranked.ids, q.expectedDocId, k) <==>
            Score(q, ranked, ks).rank.Some? && Score(q, ranked, ks).rank.value <= k
  {
    var e := Some(q.expectedDocId);
    var top := Take(ranked.ids, k);
    var rank := Score(q, ranked, ks).rank;
    if HitAt(ranked.ids, q.expectedDocId, k) {
      var j :| 0 <= j < |top| && top[j] == e;
      assert ranked.ids[j] == e;
    }
    if rank.Some? && rank.value <= k {
      assert top[rank.value - 1] == e;
    }
  }

  /** Every record the evaluator produces satisfies the record invariants;
      in particular `rr == 0` exactly when there is no rank, and otherwise
      `rr == 1 / rank`. */
  lemma ScoreValid(q: Query, ranked: Ranked, ks: seq<int>)
    requires |ranked.ids| == |ranked.dists|
    ensures ValidRecord(Score(q, ranked, ks), ks)
  {
    var r := Score(q, ranked, ks);
    if r.rank.Some? {
      var n := r.rank.value as real;
      assert n >= 1.0;
      assert 0.0 < 1.0 / n <= 1.0;
    }
  }

  lemma QueryRecordValid(search: Search, q: Query, ks: seq<int>)
    requires |ks| > 0
    ensures ValidRecord(QueryRecord(search, q, ks), ks)
    ensures MaxK(ks) >= 0 ==> |QueryRecord(search, q, ks).retrievedIds| <= MaxK(ks)
  {
    var outcome := search(q.question, MaxK(ks));
    ScoreValid(q, if outcome.Raised? then Ranked([], []) else Normalize(outcome.result, MaxK(ks)), ks);
  }

  /** Hit@K of a record agrees with its rank, for every configured `k >= 0`,
      and is monotone in `k`. */
  lemma RecordHits(search: Search, q: Query, ks: seq<int>, k1: int, k2: int)
    requires |ks| > 0 && k1 in ks && k2 in ks && 0 <= k1 <= k2
    ensures var r := QueryRecord(search, q, ks);
            (r.hits[k1] <==> r.rank.Some? && r.rank.value <= k1)
            && (r.hits[k1] ==> r.hits[k2])
  {
    var outcome := search(q.question, MaxK(ks));
    var ranked := if outcome.Raised? then Ranked([], []) else Normalize(outcome.result, MaxK(ks));
    HitIffRank(q, ranked, ks, k1);
    HitIffRank(q, ranked, ks, k2);
  }

  /** A search that raises is isolated to its query: no ids, no rank,
      reciprocal rank 0 and every hit false. */
  lemma SearchFailureIsolated(search: Search, q: Query, ks: seq<int>)
    requires |ks| > 0 && search(q.question, MaxK(ks)).Raised?
    ensures var r := QueryRecord(search, q, ks);
            r.retrievedIds == [] && r.retrievedDistances == [] && r.rank.None?
            && r.reciprocalRank == 0.0 && forall k :: k in ks ==> !r.hits[k]
  {
  }

  /** The ranked-retrieval example: ids D2, D1, D3 for expected D1 give rank
      2, reciprocal rank 0.5, no hit at 1 and a hit at 3. */
  lemma SecondPlaceExample()
    ensures var ranked := Ranked([Some("D2"), Some("D1"), Some("D3")], [None, None, None]);
            var r := Score(Query("What is X?", "D1"), ranked, [1, 3]);
            r.rank == Some(2) && r.reciprocalRank == 0.5 && !r.hits[1] && r.hits[3]
  {
    var ids := [Some("D2"), Some("D1"), Some("D3")];
    assert ids[0] != Some("D1") && ids[1] == Some("D1");
    assert Take(ids, 1) == [Some("D2")];
  }

  /** The `hit@k` loop: one flag per configured `k`. */
  method HitFlags(ids: seq<Option<string>>, expected: string, ks: seq<int>)
    returns (hits: map<int, bool>)
    ensures hits == map k | k in ks :: HitAt(ids, expected, k)
  {
    hits := map[];
    var j := 0;
    while j < |ks|
      invariant 0 <= j <= |ks|
      invariant hits == map k | k in ks[..j] :: HitAt(ids, expected, k)
    {
      var topk := Take(ids, ks[j]);
      hits := hits[ks[j] := if topk != [] then Some(expected) in topk else false];
      assert ks[..j + 1] == ks[..j] + [ks[j]];
      j := j + 1;
    }
    assert ks[..j] == ks;
  }

  /** Scores one query from its ranked identifiers: hits, rank and
      reciprocal rank. */
  method ScoreRanked(q: Query, ids: seq<Option<string>>, dists: seq<Option<Value>>, ks: seq<int>)
    returns (rec: EvalRecord)
    ensures rec == Score(q, Ranked(ids, dists), ks)
  {
    var hits := HitFlags(ids, q.expectedDocId, ks);
    var rr: real := 0.0;
    var rank: Option<nat> := None;
    if ids != [] {
      var idx := FirstIndex(ids, Some(q.expectedDocId));
      if idx.Some? {
        rank := Some(idx.value + 1);
        rr := 1.0 / ((idx.value + 1) as real);
      }
    }
    rec := EvalRecord(q.question, q.expectedDocId, ids, dists, rank, rr, hits);
  }

  /** The per-query body of the `run_evaluation` loop. */
  method EvaluateQuery(search: Search, q: Query, ks: seq<int>) returns (rec: EvalRecord)
    requires |ks| > 0
    ensures rec == QueryRecord(search, q, ks)
  {
    var maxK := MaxK(ks);
    var outcome := search(q.question, maxK);
    var ids: seq<Option<string>>, dists: seq<Option<Value>>;
    if outcome.Raised? {
      ids, dists := [], [];
    } else {
      ids, dists := ExtractIdsAndDistances(outcome.result, maxK);
    }
    rec := ScoreRanked(q, ids, dists, ks);
  }

  /** The loop of `run_evaluation` over the sampled queries: exactly one
      record per query, in query order. */
  method EvaluateQueries(search: Search, queries: seq<Query>, ks: seq<int>)
    returns (records: seq<EvalRecord>)
    requires |ks| > 0
    ensures |records| == |queries|
    ensures forall i :: 0 <= i < |queries| ==> records[i] == QueryRecord(search, queries[i], ks)
  {
    records := [];
    var i := 0;
    while i < |queries|
      invariant 0 <= i <= |queries|
      invariant |records| == i
      invariant forall k :: 0 <= k < i ==> records[k] == QueryRecord(search, queries[k], ks)
    {
      var rec := EvaluateQuery(search, queries[i], ks);
      records := records + [rec];
      i := i + 1;
    }
  }

  /** `run_evaluation(vec, queries, ks, sample_size, seed)`: shuffles the
      caller's list in place when a sample size is set, keeps its first
      `sample_size` queries and evaluates each of them. */
  method RunEvaluation(search: Search, queries: array<Query>, ks: seq<int>,
                       sampleSize: Option<int>, draws: seq<nat>)
    returns (records: seq<EvalRecord>)
    requires |ks| > 0
    requires Sampling(sampleSize) ==> ValidDraws(draws, queries.Length)
    modifies queries
    ensures queries[..] == if Sampling(sampleSize) then Shuffled(old(queries[..]), draws)
                           else old(queries[..])
    ensures var sample := Sample(old(queries[..]), sampleSize, draws);
            |records| == |sample|
            && forall i :: 0 <= i < |sample| ==> records[i] == QueryRecord(search, sample[i], ks)
  {
    var sample := SampleInPlace(queries, sampleSize, draws);
    records := EvaluateQueries(search, sample, ks);
  }

  // ============================================================ aggregator

  /** `compute_metrics`' result: Hit@K per K, MRR and the mean rank of hits. */
  datatype Metrics = Metrics(hitRates: map<int, real>, mrr: real, avgRankOfHits: Option<real>)

  /** Records that hold a `hit@k` entry (the non-missing cells of that column). */
  function CountWithKey(records: seq<EvalRecord>, k: int): (n: nat)
    ensures n <= |records|
  {
    if records == [] then 0
    else CountWithKey(records[..|records| - 1], k) + (if k in records[|records| - 1].hits then 1 else 0)
  }

  /** Records whose `hit@k` is true. */
  function CountHits(records: seq<EvalRecord>, k: int): (n: nat)
    ensures n <= CountWithKey(records, k)
  {
    if records == [] then 0
    else
      var r := records[|records| - 1];
      CountHits(records[..|records| - 1], k) + (if k in r.hits && r.hits[k] then 1 else 0)
  }

  /** `df["hit@k"].mean()`, or 0 when no record has the column. */
  function HitRate(records: seq<EvalRecord>, k: int): (rate: real)
    ensures 0.0 <= rate <= 1.0
  {
    var n := CountWithKey(records, k);
    if n == 0 then 0.0
    else
      DivideBounds(CountHits(records, k) as real, n as real, 0.0, 1.0);
      (CountHits(records, k) as real) / (n as real)
  }

  function SumRR(records: seq<EvalRecord>): real {
    if records == [] then 0.0
    else SumRR(records[..|records| - 1]) + records[|records| - 1].reciprocalRank
  }

  /** `df["reciprocal_rank"].mean()`, 0 for no records. */
  function Mrr(records: seq<EvalRecord>): real {
    if records == [] then 0.0 else SumRR(records) / (|records| as real)
  }

  function RankCount(records: seq<EvalRecord>): nat {
    if records == [] then 0
    else RankCount(records[..|records| - 1]) + (if records[|records| - 1].rank.Some? then 1 else 0)
  }

  function RankSum(records: seq<EvalRecord>): nat {
    if records == [] then 0
    else
      var r := records[|records| - 1];
      RankSum(records[..|records| - 1]) + (if r.rank.Some? then r.rank.value else 0)
  }

  /** `df["rank_of_expected"].dropna().mean()`, `None` when no query hit. */
  function AvgRankOfHits(records: seq<EvalRecord>): Option<real> {
    if RankCount(records) == 0 then None
    else Some((RankSum(records) as real) / (RankCount(records) as real))
  }

  /** `compute_metrics(df, ks)` as written: with no records the DataFrame
      has no columns, the Hit@K and MRR guards fall back to 0, and the
      unguarded `df["rank_of_expected"]` raises `KeyError`. */
  function ComputeMetricsAsWritten(records: seq<EvalRecord>, ks: seq<int>): Result<Metrics> {
    if records == [] then Err(KeyError("rank_of_expected"))
    else Ok(ComputeMetrics(records, ks))
  }

  /** `compute_metrics(df, ks)` with the empty run handled the way its column
      guards intend: every rate 0 and no mean rank. */
  function ComputeMetrics(records: seq<EvalRecord>, ks: seq<int>): Metrics {
    Metrics(map k | k in ks :: HitRate(records, k), Mrr(records), AvgRankOfHits(records))
  }

  lemma DivideBounds(s: real, c: real, lo: real, hi: real)
    requires c > 0.0 && lo * c <= s <= hi * c
    ensures lo <= s / c <= hi
  {
    assert (s / c) * c == s;
  }

  lemma DivideMonotone(a: real, b: real, n: real)
    requires n > 0.0 && a <= b
    ensures a / n <= b / n
  {
    DivideBounds(a, n, a / n, b / n);
  }

  /** An empty run makes the metrics step raise as written. */
  lemma EmptyRunRaises(ks: seq<int>)
    ensures ComputeMetricsAsWritten([], ks) == Err(KeyError("rank_of_expected"))
    ensures ComputeMetrics([], ks) == Metrics(map k | k in ks :: 0.0, 0.0, None)
  {
  }

  lemma {:induction false} SumRRBounds(records: seq<EvalRecord>)
    requires forall i :: 0 <= i < |records| ==> 0.0 <= records[i].reciprocalRank <= 1.0
    ensures 0.0 <= SumRR(records) <= |records| as real
    decreases |records|
  {
    if records != [] {
      SumRRBounds(records[..|records| - 1]);
    }
  }

  /** MRR lies in [0, 1] when every reciprocal rank does. */
  lemma MrrBounds(records: seq<EvalRecord>)
    requires forall i :: 0 <= i < |records| ==> 0.0 <= records[i].reciprocalRank <= 1.0
    ensures 0.0 <= Mrr(records) <= 1.0
  {
    SumRRBounds(records);
    if records != [] {
      DivideBounds(SumRR(records), |records| as real, 0.0, 1.0);
    }
  }

  lemma {:induction false} RankSumBounds(records: seq<EvalRecord>, bound: nat)
    requires forall i :: 0 <= i < |records| && records[i].rank.Some? ==>
               1 <= records[i].rank.value <= bound
    ensures RankCount(records) <= RankSum(records) <= bound * RankCount(records)
    decreases |records|
  {
    if records != [] {
      var init, last := records[..|records| - 1], records[|records| - 1];
      assert forall i :: 0 <= i < |init| ==> init[i] == records[i];
      RankSumBounds(init, bound);
      if last.rank.Some? {
        assert RankCount(records) == RankCount(init) + 1;
        assert bound * RankCount(records) == bound * RankCount(init) + bound;
      }
    }
  }

  /** The mean rank of hits lies between 1 and the largest rank any record
      can have. */
  lemma AvgRankBounds(records: seq<EvalRecord>, bound: nat)
    requires forall i :: 0 <= i < |records| && records[i].rank.Some? ==>
               1 <= records[i].rank.value <= bound
    requires AvgRankOfHits(records).Some?
    ensures 1.0 <= AvgRankOfHits(records).value <= bound as real
  {
    RankSumBounds(records, bound);
    var c, s := RankCount(records) as real, RankSum(records) as real;
    assert 1.0 * c <= s <= (bound as real) * c;
    DivideBounds(s, c, 1.0, bound as real);
  }

  lemma {:induction false} CountWithKeyAll(records: seq<EvalRecord>, k: int)
    requires forall i :: 0 <= i < |records| ==> k in records[i].hits
    ensures CountWithKey(records, k) == |records|
    decreases |records|
  {
    if records != [] {
      CountWithKeyAll(records[..|records| - 1], k);
    }
  }

  lemma {:induction false} CountHitsMonotone(records: seq<EvalRecord>, k1: int, k2: int)
    requires forall i :: 0 <= i < |records| ==>
               k1 in records[i].hits && k2 in records[i].hits
               && (records[i].hits[k1] ==> records[i].hits[k2])
    ensures CountHits(records, k1) <= CountHits(records, k2)
    decreases |records|
  {
    if records != [] {
      CountHitsMonotone(records[..|records| - 1], k1, k2);
    }
  }

  /** Over the records of a run, Hit@K is the fraction of queries that hit
      within K, and it does not decrease as K grows. */
  lemma RunHitRates(search: Search, queries: seq<Query>, ks: seq<int>,
                    records: seq<EvalRecord>, k1: int, k2: int)
    requires |ks| > 0 && k1 in ks && k2 in ks && 0 <= k1 <= k2
    requires |records| == |queries| > 0
    requires forall i :: 0 <= i < |queries| ==> records[i] == QueryRecord(search, queries[i], ks)
    ensures HitRate(records, k1) == (CountHits(records, k1) as real) / (|records| as real)
    ensures HitRate(records, k1) <= HitRate(records, k2)
  {
    forall i | 0 <= i < |records|
      ensures k1 in records[i].hits && k2 in records[i].hits
      ensures records[i].hits[k1] ==> records[i].hits[k2]
    {
      QueryRecordValid(search, queries[i], ks);
      RecordHits(search, queries[i], ks, k1, k2);
    }
    CountWithKeyAll(records, k1);
    CountWithKeyAll(records, k2);
    CountHitsMonotone(records, k1, k2);
    DivideMonotone(CountHits(records, k1) as real, CountHits(records, k2) as real, |records| as real);
  }

  /** Over the records of a run every Hit@K and the MRR lie in [0, 1], and,
      when `max(ks)` is not negative, the mean rank of hits lies between 1
      and `max(ks)`. */
  lemma RunMetricsBounds(search: Search, queries: seq<Query>, ks: seq<int>,
                         records: seq<EvalRecord>)
    requires |ks| > 0
    requires |records| == |queries|
    requires forall i :: 0 <= i < |queries| ==> records[i] == QueryRecord(search, queries[i], ks)
    ensures var m := ComputeMetrics(records, ks);
            (forall k :: k in ks ==> k in m.hitRates && 0.0 <= m.hitRates[k] <= 1.0)
            && 0.0 <= m.mrr <= 1.0
            && (MaxK(ks) >= 0 && m.avgRankOfHits.Some? ==>
                  1.0 <= m.avgRankOfHits.value <= MaxK(ks) as real)
  {
    forall i | 0 <= i < |records|
      ensures 0.0 <= records[i].reciprocalRank <= 1.0
    {
      QueryRecordValid(search, queries[i], ks);
    }
    MrrBounds(records);
    if MaxK(ks) >= 0 && AvgRankOfHits(records).Some? {
      var bound: nat := MaxK(ks);
      forall i | 0 <= i < |records| && records[i].rank.Some?
        ensures 1 <= records[i].rank.value <= bound
      {
        QueryRecordValid(search, queries[i], ks);
      }
      AvgRankBounds(records, bound);
    }
  }
}
