/**
 * The HTTP handlers of backend/app/main.py: `/api/ask`, which de-duplicates the sources of an
 * answer, and `/api/ingest`, which chunks a directory of documents into an index directory.
 */
module Api {
  import opened Wrappers
  import opened VectorFaiss
  import opened Config
  import opened Rag
  import opened IngestBatch

  const DefaultDocsDir: string := "./data/docs"

  datatype AskResponse = AskResponse(answer: string, sources: seq<string>)

  datatype IngestRequest = IngestRequest(docsDir: Option<string>, indexDir: Option<string>)

  /** `{"added": 0, "message": ...}` or `{"added": n, "docs_dir": ..., "index_dir": ...}`. */
  datatype IngestResponse = NoDocuments | Added(added: nat, docsDir: string, indexDir: string)

  /** `value or default`: a missing or empty value falls back to the default. */
  function OrDefault(v: Option<string>, default: string): (r: string)
    ensures r == default || (v.Some? && r == v.value && r != "")
    ensures v.Some? && v.value != "" ==> r == v.value
  {
    if v.Some? && v.value != "" then v.value else default
  }

  // ---------- list(dict.fromkeys(xs)) ----------

  predicate NoDuplicates(xs: seq<string>) {
    forall i, j :: 0 <= i < j < |xs| ==> xs[i] != xs[j]
  }

  /** `list(dict.fromkeys(xs))`: each element once, where it first occurs. */
  function Dedup(xs: seq<string>): (r: seq<string>)
    ensures |r| <= |xs|
    ensures xs != [] ==> r != [] && r[0] == xs[0]
  {
    if xs == [] then []
    else
      var prev := Dedup(xs[..|xs| - 1]);
      if xs[|xs| - 1] in prev then prev else prev + [xs[|xs| - 1]]
  }

  /** The position of the first occurrence of `x` in `xs`, or `|xs|` when there is none. */
  function FirstIndex(xs: seq<string>, x: string): (k: nat)
    ensures k <= |xs| && x !in xs[..k]
    ensures k < |xs| ==> xs[k] == x
    ensures k == |xs| ==> x !in xs
  {
    if xs == [] then 0
    else
      var init := xs[..|xs| - 1];
      var k := FirstIndex(init, x);
      assert xs == init + [xs[|xs| - 1]];
      if k < |init| then
        assert xs[..k] == init[..k];
        k
      else if xs[|xs| - 1] == x then |xs| - 1
      else |xs|
  }

  /** The de-duplicated list has exactly the elements of the original. */
  lemma {:induction false} DedupSameElements(xs: seq<string>)
    ensures forall x :: x in Dedup(xs) <==> x in xs
    decreases |xs|
  {
    if xs != [] {
      DedupSameElements(xs[..|xs| - 1]);
      assert xs == xs[..|xs| - 1] + [xs[|xs| - 1]];
    }
  }

  /** No element is listed twice. */
  lemma {:induction false} DedupNoDuplicates(xs: seq<string>)
    ensures NoDuplicates(Dedup(xs))
    decreases |xs|
  {
    if xs != [] {
      DedupNoDuplicates(xs[..|xs| - 1]);
    }
  }

  predicate InFirstOccurrenceOrder(xs: seq<string>, r: seq<string>) {
    forall i, j :: 0 <= i < j < |r| ==> FirstIndex(xs, r[i]) < FirstIndex(xs, r[j])
  }

  /** Elements are listed in the order of their first occurrence. */
  lemma {:induction false} DedupFirstOccurrenceOrder(xs: seq<string>)
    ensures InFirstOccurrenceOrder(xs, Dedup(xs))
    decreases |xs|
  {
    if xs != [] {
      DedupFirstOccurrenceOrder(xs[..|xs| - 1]);
      forall i, j | 0 <= i < j < |Dedup(xs)|
        ensures FirstIndex(xs, Dedup(xs)[i]) < FirstIndex(xs, Dedup(xs)[j])
      {
        EarlierInInit(xs, i, j);
      }
    }
  }

  /** One pair of the induction step: appending the last element keeps first-occurrence order. */
  lemma EarlierInInit(xs: seq<string>, i: nat, j: nat)
    requires xs != []
    requires InFirstOccurrenceOrder(xs[..|xs| - 1], Dedup(xs[..|xs| - 1]))
    requires i < j < |Dedup(xs)|
    ensures FirstIndex(xs, Dedup(xs)[i]) < FirstIndex(xs, Dedup(xs)[j])
  {
    var init := xs[..|xs| - 1];
    var prev := Dedup(init);
    DedupSameElements(init);
    assert Dedup(xs)[i] == prev[i];
    FirstIndexOfInit(xs, prev[i]);
    if j < |prev| {
      assert Dedup(xs)[j] == prev[j];
      FirstIndexOfInit(xs, prev[j]);
    } else {
      assert Dedup(xs)[j] == xs[|xs| - 1];
      assert FirstIndex(xs, xs[|xs| - 1]) == |xs| - 1;
    }
  }

  /** An element of all but the last position is first found where it is first found in that prefix. */
  lemma FirstIndexOfInit(xs: seq<string>, x: string)
    requires xs != [] && x in xs[..|xs| - 1]
    ensures FirstIndex(xs, x) == FirstIndex(xs[..|xs| - 1], x) < |xs| - 1
  {
  }

  /** A list without repetitions comes back unchanged. */
  lemma {:induction false} DedupOfDistinct(xs: seq<string>)
    requires NoDuplicates(xs)
    ensures Dedup(xs) == xs
    decreases |xs|
  {
    if xs != [] {
      var init := xs[..|xs| - 1];
      DedupOfDistinct(init);
      assert xs[|xs| - 1] !in init;
      assert xs == init + [xs[|xs| - 1]];
    }
  }

  // ---------- Handlers ----------

  /** `api_ask`: the pipeline's answer, with its sources de-duplicated. */
  method ApiAsk(rag: RagPipeline, question: string) returns (r: Result<AskResponse, IndexError>)
    modifies rag.index`modelLoaded, rag.index`clientReady
    ensures var a := AskResult(rag.index.State(), rag.index.embedProvider, rag.index.engine,
                               rag.llm, rag.complete, rag.topK, question);
            && (a.Err? ==> r == Err(a.error))
            && (a.Ok? ==> && r.Ok? && r.value.answer == a.value.answer
                          && NoDuplicates(r.value.sources)
                          && (forall s :: s in r.value.sources <==> s in a.value.sources)
                          && r.value.sources == Dedup(a.value.sources))
    ensures var ix := rag.index;
            && (ix.index.None? || ix.meta == [] ==>
                  ix.modelLoaded == old(ix.modelLoaded) && ix.clientReady == old(ix.clientReady))
            && (ix.index.Some? && ix.meta != [] ==> ix.EmbedderBuilt(old(ix.modelLoaded), old(ix.clientReady)))
  {
    var answer := rag.Ask(question);
    if answer.Err? {
      return Err(answer.error);
    }
    DedupNoDuplicates(answer.value.sources);
    DedupSameElements(answer.value.sources);
    r := Ok(AskResponse(answer.value.answer, Dedup(answer.value.sources)));
  }

  /** The count a response reports: 0 for "No documents found". */
  function Reported(r: Result<IngestResponse, IndexError>): Result<nat, IndexError> {
    match r
    case Err(e) => Err(e)
    case Ok(NoDocuments) => Ok(0)
    case Ok(Added(n, _, _)) => Ok(n)
  }

  /**
   * `api_ingest`: the directories fall back to their defaults when missing or empty; the documents
   * of the documents directory (`listDocs` stands for `iter_docs`) are ingested into the index
   * directory.
   */
  method ApiIngest(req: IngestRequest, settings: Settings, engine: Engine, disk: Disk,
                   listDocs: string -> seq<Doc>) returns (r: Result<IngestResponse, IndexError>)
    modifies disk
    ensures var docsDir := OrDefault(req.docsDir, DefaultDocsDir);
            var indexDir := OrDefault(req.indexDir, settings.indexDir);
            && Ingested(old(disk.indexFiles), old(disk.metaFiles), disk.indexFiles, disk.metaFiles,
                        indexDir, settings.embeddingsProvider, engine, listDocs(docsDir), Reported(r))
            && (r.Ok? && r.value.Added? ==> r.value.added > 0 && r.value.docsDir == docsDir && r.value.indexDir == indexDir)
  {
    var docsDir := OrDefault(req.docsDir, DefaultDocsDir);
    var indexDir := OrDefault(req.indexDir, settings.indexDir);
    var added := IngestDocuments(disk, indexDir, settings.embeddingsProvider, engine, listDocs(docsDir));
    if added.Err? {
      return Err(added.error);
    }
    if added.value == 0 {
      return Ok(NoDocuments);
    }
    r := Ok(Added(added.value, docsDir, indexDir));
  }
}
