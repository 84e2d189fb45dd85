/**
 * The document loop shared by the `/api/ingest` handler (backend/app/main.py) and the command-line
 * ingester (scripts/run_ingest.py): skip blank documents, chunk the rest with 450-word windows
 * overlapping by 80 words, and tag every chunk with its file's base name.
 */
module IngestBatch {
  import opened Wrappers
  import opened Text
  import opened Ingest
  import opened VectorFaiss

  const MaxTokens: int := 450
  const Overlap: int := 80

  /** A document as `iter_docs` yields it: its path and its extracted text. */
  datatype Doc = Doc(path: string, text: string)

  /** The parallel `texts` / `sources` lists the loop builds. */
  datatype Batch = Batch(texts: seq<string>, sources: seq<string>)

  /** `os.path.basename` on a POSIX path: everything after the last '/'. */
  function Basename(path: string): (b: string)
    ensures |b| <= |path| && path[|path| - |b|..] == b
    ensures forall i :: 0 <= i < |b| ==> b[i] != '/'
    ensures |b| < |path| ==> path[|path| - |b| - 1] == '/'
  {
    if path == [] || path[|path| - 1] == '/' then []
    else Basename(path[..|path| - 1]) + [path[|path| - 1]]
  }

  function Repeat(x: string, n: nat): (r: seq<string>)
    ensures |r| == n && forall i :: 0 <= i < n ==> r[i] == x
  {
    seq(n, _ => x)
  }

  /**
   * `chunk_text(text, max_tokens=450, overlap=80)`: a blank document gives no chunk, and a
   * document of at most 450 words gives exactly one, its words joined by single spaces.
   */
  function DocChunks(text: string): (r: seq<string>)
    ensures r == [] <==> IsBlank(text)
    ensures !IsBlank(text) && |Split(text)| <= MaxTokens ==> r == [Join(Split(text))]
  {
    NoChunksIffBlank(text, MaxTokens, Overlap);
    SplitEmptyIffBlank(text);
    if 0 < |Split(text)| <= MaxTokens then
      ShortTextOneChunk(text, MaxTokens, Overlap);
      Chunks(Split(text), MaxTokens, Overlap)
    else
      Chunks(Split(text), MaxTokens, Overlap)
  }

  /** What one document contributes: nothing when blank, else its chunks, each tagged with its base name. */
  function DocBatch(d: Doc): (b: Batch)
    ensures |b.texts| == |b.sources|
  {
    if IsBlank(d.text) then Batch([], [])
    else
      var cs := DocChunks(d.text);
      Batch(cs, Repeat(Basename(d.path), |cs|))
  }

  /** The batch built from `docs`, in order. */
  function BatchOf(docs: seq<Doc>): (b: Batch)
    ensures |b.texts| == |b.sources|
  {
    if docs == [] then Batch([], [])
    else
      var prev := BatchOf(docs[..|docs| - 1]);
      var db := DocBatch(docs[|docs| - 1]);
      Batch(prev.texts + db.texts, prev.sources + db.sources)
  }

  /** Total number of chunks over all documents. */
  function ChunkCount(docs: seq<Doc>): nat {
    if docs == [] then 0 else ChunkCount(docs[..|docs| - 1]) + |DocChunks(docs[|docs| - 1].text)|
  }

  /**
   * A document contributes exactly its chunks, each tagged with its base name, and something
   * exactly when it is not blank.
   */
  lemma DocBatchChunks(d: Doc)
    ensures DocBatch(d).texts == DocChunks(d.text)
    ensures DocBatch(d).sources == Repeat(Basename(d.path), |DocChunks(d.text)|)
    ensures DocBatch(d).texts == [] <==> IsBlank(d.text)
  { }

  /** One more document extends the batch by its chunks and as many copies of its base name. */
  lemma BatchOfSnoc(docs: seq<Doc>, d: Doc)
    ensures BatchOf(docs + [d]).texts == BatchOf(docs).texts + DocChunks(d.text)
    ensures BatchOf(docs + [d]).sources == BatchOf(docs).sources + Repeat(Basename(d.path), |DocChunks(d.text)|)
  { }

  /** Skipping blank documents loses no count: the batch has as many texts as all documents have chunks. */
  lemma {:induction false} BatchSize(docs: seq<Doc>)
    ensures |BatchOf(docs).texts| == ChunkCount(docs)
    decreases |docs|
  {
    if docs != [] {
      BatchSize(docs[..|docs| - 1]);
    }
  }

  /** The batch is empty exactly when every document is blank. */
  lemma BatchEmptyIffAllBlank(docs: seq<Doc>)
    ensures BatchOf(docs).texts == [] <==> forall k :: 0 <= k < |docs| ==> IsBlank(docs[k].text)
  {
    if BatchOf(docs).texts == [] {
      forall k | 0 <= k < |docs| ensures IsBlank(docs[k].text) {
        EmptyBatchMeansBlank(docs, k);
      }
    } else if forall k :: 0 <= k < |docs| ==> IsBlank(docs[k].text) {
      AllBlankMeansEmpty(docs);
    }
  }

  lemma {:induction false} EmptyBatchMeansBlank(docs: seq<Doc>, k: nat)
    requires k < |docs| && BatchOf(docs).texts == []
    ensures IsBlank(docs[k].text)
    decreases |docs|
  {
    var init := docs[..|docs| - 1];
    var last := docs[|docs| - 1];
    assert BatchOf(docs).texts == BatchOf(init).texts + DocBatch(last).texts;
    if k < |init| {
      EmptyBatchMeansBlank(init, k);
      assert init[k] == docs[k];
    } else {
      assert DocBatch(last).texts == [];
    }
  }

  lemma {:induction false} AllBlankMeansEmpty(docs: seq<Doc>)
    requires forall k :: 0 <= k < |docs| ==> IsBlank(docs[k].text)
    ensures BatchOf(docs).texts == []
    decreases |docs|
  {
    if docs != [] {
      var init := docs[..|docs| - 1];
      var last := docs[|docs| - 1];
      forall k | 0 <= k < |init| ensures IsBlank(init[k].text) {
        assert init[k] == docs[k];
      }
      AllBlankMeansEmpty(init);
      assert IsBlank(last.text);
      DocBatchChunks(last);
    }
  }

  /**
   * Every chunk of the batch is a chunk of some non-blank document `k`, tagged with that document's
   * base name.
   */
  lemma {:induction false} BatchTagged(docs: seq<Doc>, j: nat) returns (k: nat)
    requires j < |BatchOf(docs).texts|
    ensures k < |docs| && !IsBlank(docs[k].text)
    ensures BatchOf(docs).texts[j] in DocChunks(docs[k].text)
    ensures BatchOf(docs).sources[j] == Basename(docs[k].path)
    decreases |docs|
  {
    var init := docs[..|docs| - 1];
    var prev := BatchOf(init);
    var db := DocBatch(docs[|docs| - 1]);
    if j < |prev.texts| {
      k := BatchTagged(init, j);
      assert init[k] == docs[k];
    } else {
      k := |docs| - 1;
      assert BatchOf(docs).texts[j] == db.texts[j - |prev.texts|];
      assert BatchOf(docs).sources[j] == db.sources[j - |prev.texts|];
    }
  }

  /**
   * The loop of backend/app/main.py and scripts/run_ingest.py: one pass over the documents,
   * extending `texts` with each non-blank document's chunks and `sources` with as many copies of its
   * base name.
   */
  method ChunkDocuments(docs: seq<Doc>) returns (texts: seq<string>, sources: seq<string>)
    ensures Batch(texts, sources) == BatchOf(docs)
    ensures |texts| == |sources| == ChunkCount(docs)
  {
    texts, sources := [], [];
    for i := 0 to |docs|
      invariant Batch(texts, sources) == BatchOf(docs[..i])
    {
      assert docs[..i + 1][..i] == docs[..i];
      var d := docs[i];
      if IsBlank(d.text) {
        continue;
      }
      var chunks := ChunkText(d.text, MaxTokens, Overlap);
      texts := texts + chunks;
      sources := sources + Repeat(Basename(d.path), |chunks|);
    }
    assert docs[..|docs|] == docs;
    BatchSize(docs);
  }

  /**
   * Adding a batch appends one vector and one (chunk, base name) entry per chunk, so an index whose
   * vectors and metadata were in step stays in step.
   */
  lemma IngestAppendsBatch(s: Store, provider: string, engine: Engine, docs: seq<Doc>)
    requires BatchOf(docs).texts != []
    requires AddResult(s, provider, engine, BatchOf(docs).texts, BatchOf(docs).sources).Ok?
    ensures var b := BatchOf(docs);
            var after := AddResult(s, provider, engine, b.texts, b.sources).value;
            && after.meta == s.meta + Zip(b.texts, b.sources)
            && Count(after) == Count(s) + |b.texts|
            && (Paired(s) ==> Paired(after))
  {
    var b := BatchOf(docs);
    var vecs := Embedded(engine, b.texts);
    if Paired(s) {
      AddKeepsPairing(s, vecs, b.texts, b.sources);
    }
  }

  /** `_save` of store `s` into `indexDir`: its two artifacts are replaced, every other directory's kept. */
  predicate Rewritten(ix0: map<string, FlatIP>, mt0: map<string, seq<Entry>>,
                      ix1: map<string, FlatIP>, mt1: map<string, seq<Entry>>, indexDir: string, s: Store)
    ensures Rewritten(ix0, mt0, ix1, mt1, indexDir, s) ==>
              && Loaded(ix1, mt1, indexDir) == s
              && forall d :: d != indexDir ==> Loaded(ix1, mt1, d) == Loaded(ix0, mt0, d)
  {
    && s.index.Some?
    && ix1 == ix0[indexDir := s.index.value]
    && mt1 == mt0[indexDir := s.meta]
  }

  /**
   * What both ingest entry points promise, from the artifacts before (`ix0`, `mt0`) to those after
   * (`ix1`, `mt1`): an empty directory path is refused before anything is read; a count of 0 and
   * nothing written when no document has words; otherwise either the add error with nothing
   * written, or the chunk count with only the artifacts of `indexDir` rewritten, to the old metadata
   * followed by one (chunk, base name) entry per chunk. No other directory changes.
   */
  predicate Ingested(ix0: map<string, FlatIP>, mt0: map<string, seq<Entry>>,
                     ix1: map<string, FlatIP>, mt1: map<string, seq<Entry>>,
                     indexDir: string, provider: string, engine: Engine, docs: seq<Doc>,
                     r: Result<nat, IndexError>)
    ensures Ingested(ix0, mt0, ix1, mt1, indexDir, provider, engine, docs, r) && r.Err? ==> ix1 == ix0 && mt1 == mt0
    ensures Ingested(ix0, mt0, ix1, mt1, indexDir, provider, engine, docs, r) ==>
              forall d :: d != indexDir ==> Loaded(ix1, mt1, d) == Loaded(ix0, mt0, d)
  {
    var b := BatchOf(docs);
    var before := Loaded(ix0, mt0, indexDir);
    if indexDir == "" then r == Err(EmptyIndexDir) && ix1 == ix0 && mt1 == mt0
    else if b.texts == [] then r == Ok(0) && ix1 == ix0 && mt1 == mt0
    else
      var res := AddResult(before, provider, engine, b.texts, b.sources);
      if res.Err? then r == Err(res.error) && ix1 == ix0 && mt1 == mt0
      else
        && r == Ok(|b.texts|)
        && Rewritten(ix0, mt0, ix1, mt1, indexDir, res.value)
        && res.value.meta == before.meta + Zip(b.texts, b.sources)
        && (Paired(before) ==> Paired(res.value))
  }

  /** A reported count is 0 exactly when every document is blank, and otherwise the number of chunks. */
  lemma IngestedCount(ix0: map<string, FlatIP>, mt0: map<string, seq<Entry>>,
                      ix1: map<string, FlatIP>, mt1: map<string, seq<Entry>>,
                      indexDir: string, provider: string, engine: Engine, docs: seq<Doc>, n: nat)
    requires Ingested(ix0, mt0, ix1, mt1, indexDir, provider, engine, docs, Ok(n))
    ensures n == 0 <==> forall k :: 0 <= k < |docs| ==> IsBlank(docs[k].text)
    ensures n == ChunkCount(docs)
  {
    BatchEmptyIffAllBlank(docs);
    BatchSize(docs);
  }

  lemma IngestedAfterAdd(ix0: map<string, FlatIP>, mt0: map<string, seq<Entry>>, s: Store,
                         indexDir: string, provider: string, engine: Engine, docs: seq<Doc>)
    requires indexDir != "" && BatchOf(docs).texts != []
    requires AddResult(Loaded(ix0, mt0, indexDir), provider, engine, BatchOf(docs).texts, BatchOf(docs).sources) == Ok(s)
    requires s.index.Some?
    ensures Ingested(ix0, mt0, ix0[indexDir := s.index.value], mt0[indexDir := s.meta],
                     indexDir, provider, engine, docs, Ok(|BatchOf(docs).texts|))
  {
    IngestAppendsBatch(Loaded(ix0, mt0, indexDir), provider, engine, docs);
    SaveLoadRoundTrip(ix0, mt0, indexDir, s);
  }

  /**
   * The body shared by `api_ingest` and the script's `main`: create and open the index directory,
   * chunk the documents, and add the batch unless it is empty.
   */
  method IngestDocuments(disk: Disk, indexDir: string, provider: string, engine: Engine, docs: seq<Doc>)
    returns (r: Result<nat, IndexError>)
    modifies disk
    ensures Ingested(old(disk.indexFiles), old(disk.metaFiles), disk.indexFiles, disk.metaFiles,
                     indexDir, provider, engine, docs, r)
  {
    if indexDir == "" {
      return Err(EmptyIndexDir);
    }
    var store := new FaissIndex(disk, indexDir, provider, engine);
    var texts, sources := ChunkDocuments(docs);
    if texts == [] {
      return Ok(0);
    }
    var added := store.Add(texts, sources);
    if added.Err? {
      return Err(added.error);
    }
    IngestedAfterAdd(old(disk.indexFiles), old(disk.metaFiles), store.State(), indexDir, provider, engine, docs);
    r := Ok(|texts|);
  }
}
