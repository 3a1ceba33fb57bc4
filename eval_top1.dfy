/** The top-1 retrieval evaluator: the same groundtruth flattening and
    sampling as the top-K evaluator, but each query asks the vector store for
    a single result, takes one identifier from it, and is judged correct or
    not; the run is summarised by its accuracy. */
module EvalTop1 {
  import opened Wrappers
  import opened PyText
  import opened PyValues
  import opened VectorStore
  import opened Sampler
  import opened EvalTopK

  // ================================================================ queries

  /** A question `q.strip()` cannot be called on: truthy but not a string. */
  predicate Unstrippable(q: Value) {
    Truthy(q) && !q.VStr?
  }

  /** `q.strip()` can be called on every question of the list. */
  predicate Strippable(qlist: seq<Value>) {
    qlist == [] || (Strippable(qlist[..|qlist| - 1]) && !Unstrippable(qlist[|qlist| - 1]))
  }

  /** `q.strip()` can be called on every question of every document. */
  predicate AllStrippable(gt: Groundtruth) {
    gt == [] || (AllStrippable(gt[..|gt| - 1]) && Strippable(gt[|gt| - 1].1))
  }

  lemma {:induction false} StrippableIff(qlist: seq<Value>)
    ensures Strippable(qlist) <==> forall j :: 0 <= j < |qlist| ==> !Unstrippable(qlist[j])
    decreases |qlist|
  {
    if qlist != [] {
      var init := qlist[..|qlist| - 1];
      StrippableIff(init);
      assert forall j :: 0 <= j < |init| ==> init[j] == qlist[j];
    }
  }

  lemma {:induction false} StrippablePrefix(qlist: seq<Value>, k: nat)
    requires k <= |qlist| && Strippable(qlist)
    ensures Strippable(qlist[..k])
    decreases |qlist|
  {
    if k < |qlist| {
      var init := qlist[..|qlist| - 1];
      assert init[..k] == qlist[..k];
      StrippablePrefix(init, k);
    } else {
      assert qlist[..k] == qlist;
    }
  }

  lemma {:induction false} AllStrippablePrefix(gt: Groundtruth, k: nat)
    requires k <= |gt| && AllStrippable(gt)
    ensures AllStrippable(gt[..k])
    decreases |gt|
  {
    if k < |gt| {
      var init := gt[..|gt| - 1];
      assert init[..k] == gt[..k];
      AllStrippablePrefix(init, k);
    } else {
      assert gt[..k] == gt;
    }
  }

  /** `build_queries` can run to the end exactly when no document lists a
      truthy question that is not a string. */
  lemma {:induction false} AllStrippableIff(gt: Groundtruth)
    ensures AllStrippable(gt) <==>
              forall i, j :: 0 <= i < |gt| && 0 <= j < |gt[i].1| ==> !Unstrippable(gt[i].1[j])
    decreases |gt|
  {
    if gt != [] {
      var init := gt[..|gt| - 1];
      AllStrippableIff(init);
      StrippableIff(gt[|gt| - 1].1);
      assert forall i :: 0 <= i < |init| ==> init[i] == gt[i];
    }
  }

  /** The inner loop of `build_queries`: appends the queries of one
      document's question list, or stops at the first question that is not
      a string. */
  method AppendQueries(queries: seq<Query>, docId: string, qlist: seq<Value>)
    returns (out: Result<seq<Query>>)
    ensures out.Err? <==> !Strippable(qlist)
    ensures out.Err? ==> out.error == AttributeError("strip")
    ensures out.Ok? ==> out.value == queries + QueriesOf(docId, qlist)
  {
    var acc := queries;
    var j := 0;
    while j < |qlist|
      invariant 0 <= j <= |qlist|
      invariant Strippable(qlist[..j])
      invariant acc == queries + QueriesOf(docId, qlist[..j])
    {
      assert qlist[..j + 1][..j] == qlist[..j];
      var q := qlist[j];
      if Truthy(q) && !q.VStr? {
        // `q.strip()` on a value that is not a string
        if Strippable(qlist) {
          StrippablePrefix(qlist, j + 1);
        }
        return Err(AttributeError("strip"));
      }
      QueriesOfStep(docId, qlist, j);
      if Truthy(q) && StrStrip(q) != [] {
        acc := acc + [Query(StrStrip(q), Strip(docId))];
      }
      j := j + 1;
    }
    assert qlist[..j] == qlist;
    return Ok(acc);
  }

  /** `build_queries(gt)`: every kept question, in mapping and list order,
      exactly as the top-K evaluator builds them; a truthy question that is
      not a string makes `q.strip()` raise instead. */
  method BuildQueries(gt: Groundtruth) returns (r: Result<seq<Query>>)
    ensures r.Err? <==> !AllStrippable(gt)
    ensures r.Err? ==> r.error == AttributeError("strip")
    ensures r.Ok? ==> r.value == Flatten(gt)
  {
    var queries := [];
    var i := 0;
    while i < |gt|
      invariant 0 <= i <= |gt|
      invariant AllStrippable(gt[..i])
      invariant queries == Flatten(gt[..i])
    {
      var (docId, qlist) := gt[i];
      assert gt[..i + 1][..i] == gt[..i];
      var step := AppendQueries(queries, docId, qlist);
      if step.Err? {
        if AllStrippable(gt) {
          AllStrippablePrefix(gt, i + 1);
        }
        return Err(step.error);
      }
      queries := step.value;
      FlattenStep(gt, i);
      i := i + 1;
    }
    assert gt[..i] == gt;
    return Ok(queries);
  }

  // ============================================================ extraction

  /** The identifier read from the first row of a table: a `doc_id` column
      wins as it is (trimmed only when it holds a string, so a null comes
      back as null), then a non-null `id` as trimmed text, then the raw
      `doc_id` of a dict in the `metadata` column. */
  function FirstRowId(columns: seq<string>, row: Row): Value {
    if "doc_id" in columns then
      var c := Cell(row, "doc_id");
      if c.VStr? then VStr(Strip(c.s)) else c
    else if "id" in columns then
      var c := Cell(row, "id");
      if NotNA(c) then VStr(StrStrip(c)) else VNone
    else if "metadata" in columns && Cell(row, "metadata").VDict?
            && Lookup(Cell(row, "metadata").entries, "doc_id").Some? then
      Lookup(Cell(row, "metadata").entries, "doc_id").value
    else VNone
  }

  /** The identifier read from the first tuple of a result list: a
      non-`None` position 0 as trimmed text, else the raw `doc_id` of a dict
      at position 1; an empty tuple makes `first[0]` raise `IndexError`. */
  function FirstItemId(fields: seq<Value>): Result<Value> {
    if fields == [] then Err(IndexError)
    else if fields[0] != VNone then Ok(VStr(StrStrip(fields[0])))
    else if |fields| > 1 && fields[1].VDict? && Lookup(fields[1].entries, "doc_id").Some? then
      Ok(Lookup(fields[1].entries, "doc_id").value)
    else Ok(VNone)
  }

  /** `extract_retrieved_id(results)`: only the first row or item is read;
      `None`, an empty table, an empty list, a first item that is not a
      list or tuple, and any other container give `None`. */
  function RetrievedId(results: SearchResult): Result<Value> {
    match results
    case NoResult => Ok(VNone)
    case Frame(df) => if Empty(df) then Ok(VNone) else Ok(FirstRowId(df.columns, df.rows[0]))
    case Listed(items) =>
      if items == [] || !IsSequence(items[0]) then Ok(VNone) else FirstItemId(items[0].items)
    case Unrecognised => Ok(VNone)
  }

  /** Only the first row or item is consulted: dropping every later one
      changes nothing. */
  lemma RetrievedIdReadsFirstOnly(results: SearchResult)
    ensures results.Frame? && |results.df.rows| > 0 ==>
              RetrievedId(results) == RetrievedId(Frame(DataFrame(results.df.columns, results.df.rows[..1])))
    ensures results.Listed? && |results.items| > 0 ==>
              RetrievedId(results) == RetrievedId(Listed(results.items[..1]))
  {
    if results.Frame? && |results.df.rows| > 0 {
      assert results.df.rows[..1][0] == results.df.rows[0];
    }
    if results.Listed? && |results.items| > 0 {
      assert results.items[..1][0] == results.items[0];
    }
  }

  /** Extraction raises exactly when the result list starts with an empty
      list or tuple, and then it is `IndexError`. */
  lemma RetrievedIdFailsOnlyOnEmptyFirstItem(results: SearchResult)
    ensures RetrievedId(results).Err? <==>
              results.Listed? && |results.items| > 0 && IsSequence(results.items[0])
              && results.items[0].items == []
    ensures RetrievedId(results).Err? ==> RetrievedId(results).error == IndexError
  {
  }

  /** `None`, an empty table, an empty list, a first item that is not a list
      or tuple, and an unrecognised container retrieve nothing. */
  lemma RetrievedIdNothing(results: SearchResult)
    requires || results.NoResult? || results.Unrecognised?
             || (results.Frame? && Empty(results.df))
             || (results.Listed? && (results.items == [] || !IsSequence(results.items[0])))
    ensures RetrievedId(results) == Ok(VNone)
  {
  }

  /** Where the table has an `id` column, no `doc_id` column and a non-null
      first id, the top-1 identifier is the first identifier the top-K
      normaliser ranks. */
  lemma IdColumnAgreesWithTopK(df: DataFrame)
    requires !Empty(df) && "doc_id" !in df.columns && "id" in df.columns
    requires NotNA(Cell(df.rows[0], "id"))
    ensures Normalize(Frame(df), 1).ids != [] && Normalize(Frame(df), 1).ids[0].Some?
    ensures RetrievedId(Frame(df)) == Ok(VStr(Normalize(Frame(df), 1).ids[0].value))
  {
    var rows := Take(df.rows, 1);
    assert rows[0] == df.rows[0];
  }

  /** For a first tuple with a non-null position 0 and no usable metadata
      id, the top-1 identifier is the first identifier the top-K normaliser
      ranks. */
  lemma TupleAgreesWithTopK(items: seq<Value>)
    requires |items| > 0 && IsSequence(items[0]) && |items[0].items| > 0
    requires items[0].items[0] != VNone
    requires !(|items[0].items| > 1 && items[0].items[1].VDict?
               && FirstPresent(items[0].items[1].entries, IdKeys).Some?)
    ensures Normalize(Listed(items), 1).ids != [] && Normalize(Listed(items), 1).ids[0].Some?
    ensures RetrievedId(Listed(items)) == Ok(VStr(Normalize(Listed(items), 1).ids[0].value))
  {
    var xs := Take(items, 1);
    assert xs[0] == items[0];
  }

  /** The two evaluators' field priorities differ: for a tuple whose
      position 0 is a chunk id and whose metadata names the document, the
      top-1 evaluator takes the chunk id and the top-K one the document. */
  lemma MetadataPriorityDiffers()
    ensures var item := VTuple([VStr("chunk-7"), VDict([("doc_id", VStr("D1"))])]);
            && RetrievedId(Listed([item])) == Ok(VStr("chunk-7"))
            && Normalize(Listed([item]), 1).ids == [Some("D1")]
  {
    var entries := [("doc_id", VStr("D1"))];
    assert Usable(entries, "doc_id");
    assert FirstPresent(entries, IdKeys) == Some(VStr("D1"));
    StripStripped("chunk-7");
    StripStripped("D1");
  }

  /** A null `doc_id` cell is returned as it is by the top-1 evaluator,
      while the top-K normaliser falls through to the `id` column. */
  lemma NullDocIdDiffers()
    ensures var row := map["doc_id" := VFloat("nan"), "id" := VStr("D1")];
            var df := DataFrame(["doc_id", "id"], [row]);
            && RetrievedId(Frame(df)) == Ok(VFloat("nan"))
            && Normalize(Frame(df), 1).ids == [Some("D1")]
  {
    StripStripped("D1");
  }

  // ============================================================= evaluator

  /** One row of the top-1 report (the timestamp column is not modelled). */
  datatype Top1Record = Top1Record(
    question: string,
    expectedDocId: string,
    retrievedId: Value,
    distance: Value,
    correct: bool)

  /** `results.iloc[0].get("distance")` for a non-empty table with that
      column, `None` otherwise. */
  function FirstDistance(results: SearchResult): Value {
    if results.Frame? && !Empty(results.df) && "distance" in results.df.columns then
      Cell(results.df.rows[0], "distance")
    else VNone
  }

  /** The record `run_evaluation` appends for one query given what the
      search did: a raised search retrieves nothing, an extraction error
      escapes, and `correct` is `retrieved_id == expected`. */
  function Judge(q: Query, outcome: SearchOutcome): Result<Top1Record> {
    match outcome
    case Raised => Ok(Top1Record(q.question, q.expectedDocId, VNone, VNone, false))
    case Returned(results) =>
      var id := RetrievedId(results);
      if id.Err? then Err(id.error)
      else Ok(Top1Record(q.question, q.expectedDocId, id.value, FirstDistance(results),
                         id.value == VStr(q.expectedDocId)))
  }

  /** A query is judged correct exactly when the search returned, the
      identifier was read without error, and it is the expected id as a
      string; a search that raises is never correct. */
  lemma CorrectIffExpected(q: Query, outcome: SearchOutcome)
    ensures Judge(q, outcome).Ok? && Judge(q, outcome).value.correct <==>
              outcome.Returned? && RetrievedId(outcome.result) == Ok(VStr(q.expectedDocId))
    ensures outcome.Raised? ==> Judge(q, outcome).Ok? && !Judge(q, outcome).value.correct
  {
  }

  /** The records of a run over `qs`, one per query in order, or the first
      extraction error. */
  function Records(search: Search, qs: seq<Query>): Result<seq<Top1Record>> {
    if qs == [] then Ok([])
    else
      var init := Records(search, qs[..|qs| - 1]);
      var last := qs[|qs| - 1];
      var r := Judge(last, search(last.question, 1));
      if init.Err? then init
      else if r.Err? then Err(r.error)
      else Ok(init.value + [r.value])
  }

  /** The run fails exactly when some query's extraction fails; otherwise it
      holds exactly one record per query, in query order. */
  lemma {:induction false} RecordsSpec(search: Search, qs: seq<Query>)
    ensures Records(search, qs).Err? <==>
              exists i :: 0 <= i < |qs| && Judge(qs[i], search(qs[i].question, 1)).Err?
    ensures Records(search, qs).Ok? ==>
              |Records(search, qs).value| == |qs|
              && forall i :: 0 <= i < |qs| ==>
                   Judge(qs[i], search(qs[i].question, 1)) == Ok(Records(search, qs).value[i])
    decreases |qs|
  {
    if qs != [] {
      var init := qs[..|qs| - 1];
      RecordsSpec(search, init);
      assert forall i :: 0 <= i < |init| ==> init[i] == qs[i];
    }
  }

  /** The per-query body of the `run_evaluation` loop, with `limit=1`. */
  method JudgeQuery(search: Search, q: Query) returns (r: Result<Top1Record>)
    ensures r == Judge(q, search(q.question, 1))
  {
    var question, expected := q.question, q.expectedDocId;
    var retrievedId, distance := VNone, VNone;
    var outcome := search(question, 1);
    if outcome.Returned? {
      var results := outcome.result;
      var id := RetrievedId(results);
      if id.Err? {
        return Err(id.error);
      }
      retrievedId := id.value;
      if results.Frame? && !Empty(results.df) && "distance" in results.df.columns {
        distance := Cell(results.df.rows[0], "distance");
      }
    }
    var correct := retrievedId == VStr(expected);
    return Ok(Top1Record(question, expected, retrievedId, distance, correct));
  }

  lemma RecordsStep(search: Search, qs: seq<Query>, i: nat)
    requires i < |qs|
    ensures Records(search, qs[..i + 1])
            == var init := Records(search, qs[..i]);
               var r := Judge(qs[i], search(qs[i].question, 1));
               if init.Err? then init else if r.Err? then Err(r.error) else Ok(init.value + [r.value])
  {
    assert qs[..i + 1][..i] == qs[..i];
  }

  /** Once a prefix of the run has failed, the run fails with that error:
      the exception escapes the loop. */
  lemma {:induction false} RecordsErrorEscapes(search: Search, qs: seq<Query>, i: nat)
    requires i <= |qs| && Records(search, qs[..i]).Err?
    ensures Records(search, qs) == Records(search, qs[..i])
    decreases |qs|
  {
    if i < |qs| {
      var init := qs[..|qs| - 1];
      assert init[..i] == qs[..i];
      RecordsErrorEscapes(search, init, i);
    } else {
      assert qs[..i] == qs;
    }
  }

  /** The loop of `run_evaluation` over the sampled queries. */
  method JudgeQueries(search: Search, qs: seq<Query>) returns (r: Result<seq<Top1Record>>)
    ensures r == Records(search, qs)
  {
    var records := [];
    var i := 0;
    while i < |qs|
      invariant 0 <= i <= |qs|
      invariant Records(search, qs[..i]) == Ok(records)
    {
      RecordsStep(search, qs, i);
      var rec := JudgeQuery(search, qs[i]);
      if rec.Err? {
        RecordsErrorEscapes(search, qs, i + 1);
        return Err(rec.error);
      }
      records := records + [rec.value];
      i := i + 1;
    }
    assert qs[..i] == qs;
    return Ok(records);
  }

  /** `run_evaluation(vec, queries, sample_size, seed)`: shuffles the
      caller's list in place when a sample size is set, keeps its first
      `sample_size` queries and judges each of them with `limit=1`; an
      extraction error ends the run. */
  method RunEvaluation(search: Search, queries: array<Query>, sampleSize: Option<int>,
                       draws: seq<nat>)
    returns (r: Result<seq<Top1Record>>)
    requires Sampling(sampleSize) ==> ValidDraws(draws, queries.Length)
    modifies queries
    ensures queries[..] == if Sampling(sampleSize) then Shuffled(old(queries[..]), draws)
                           else old(queries[..])
    ensures r == Records(search, Sample(old(queries[..]), sampleSize, draws))
  {
    var sample := SampleInPlace(queries, sampleSize, draws);
    r := JudgeQueries(search, sample);
  }

  // ================================================================= main

  /** `main`'s sample size: the configured one when it is truthy, otherwise
      the number of queries. */
  function EffectiveSampleSize(configured: Option<int>, n: nat): Option<int> {
    if Sampling(configured) then configured else Some(n)
  }

  /** Without a configured size the whole query list is evaluated, reordered
      by the shuffle when it is not empty; with one, exactly that size is
      asked for. */
  lemma EffectiveSampleSizeCovers<T>(s: seq<T>, configured: Option<int>, draws: seq<nat>)
    requires ValidDraws(draws, |s|)
    ensures Sampling(configured) ==> EffectiveSampleSize(configured, |s|) == configured
    ensures !Sampling(configured) ==>
              var sample := Sample(s, EffectiveSampleSize(configured, |s|), draws);
              |sample| == |s| && multiset(sample) == multiset(s)
              && (|s| > 0 ==> sample == Shuffled(s, draws))
  {
    if !Sampling(configured) && |s| > 0 {
      FullSampleIsPermutation(s, |s|, draws);
      ShuffledPermutes(s, draws);
    }
  }

  /** `df_results["correct"].sum()`. */
  function CorrectCount(records: seq<Top1Record>): (n: nat)
    ensures n <= |records|
  {
    if records == [] then 0
    else CorrectCount(records[..|records| - 1]) + (if records[|records| - 1].correct then 1 else 0)
  }

  /** The accuracy lines of `main` as written: with no records the
      DataFrame has no `correct` column and `df_results["correct"]` raises
      `KeyError` before the `total > 0` guard is reached. */
  function AccuracyAsWritten(records: seq<Top1Record>): Result<real> {
    if records == [] then Err(KeyError("correct"))
    else Ok((CorrectCount(records) as real) / (|records| as real))
  }

  /** `correct / total if total > 0 else 0.0`, with the empty run reaching
      its guard as intended. */
  function Accuracy(records: seq<Top1Record>): (a: real)
    ensures 0.0 <= a <= 1.0
  {
    if |records| > 0 then
      DivideBounds(CorrectCount(records) as real, |records| as real, 0.0, 1.0);
      (CorrectCount(records) as real) / (|records| as real)
    else 0.0
  }

  lemma {:induction false} CorrectCountExtremes(records: seq<Top1Record>)
    ensures CorrectCount(records) == |records| <==> forall i :: 0 <= i < |records| ==> records[i].correct
    ensures CorrectCount(records) == 0 <==> forall i :: 0 <= i < |records| ==> !records[i].correct
    decreases |records|
  {
    if records != [] {
      var init := records[..|records| - 1];
      CorrectCountExtremes(init);
      assert forall i :: 0 <= i < |init| ==> init[i] == records[i];
    }
  }

  /** Accuracy is 1 exactly when a non-empty run is all correct, and 0
      exactly when no record is correct. */
  lemma AccuracyExtremes(records: seq<Top1Record>)
    ensures Accuracy(records) == 1.0 <==> records != [] && forall i :: 0 <= i < |records| ==> records[i].correct
    ensures Accuracy(records) == 0.0 <==> forall i :: 0 <= i < |records| ==> !records[i].correct
  {
    CorrectCountExtremes(records);
    if records != [] {
      var c, n := CorrectCount(records) as real, |records| as real;
      assert (c / n) * n == c;
    }
  }

  /** As written, an empty run raises instead of reporting accuracy 0; on
      every non-empty run the two agree. */
  lemma EmptyRunRaises(records: seq<Top1Record>)
    ensures records == [] ==> AccuracyAsWritten(records) == Err(KeyError("correct")) && Accuracy(records) == 0.0
    ensures records != [] ==> AccuracyAsWritten(records) == Ok(Accuracy(records))
  {
  }
}
