/**
 * `FaissIndex` of backend/app/retrieval/vector_faiss.py: a flat inner-product vector structure
 * kept parallel to a list of (text, source) metadata, persisted as two artifacts per directory.
 * The embedding model and FAISS's ranking are abstracted into `Engine`.
 */
module VectorFaiss {
  import opened Wrappers

  type Vector = seq<real>

  /** One `_meta` entry: a chunk's text and the file name it came from. */
  datatype Entry = Entry(text: string, source: string)

  /** One search hit `(text, source, score)`. */
  datatype Hit = Hit(text: string, source: string, score: real)

  /** One result slot of a FAISS search: a stored position or -1 for "no match", with its score. */
  datatype Slot = Slot(id: int, score: real)

  /** `faiss.IndexFlatIP(d)`: the width fixed at creation and the vectors in insertion order. */
  datatype FlatIP = FlatIP(d: nat, vectors: seq<Vector>)

  datatype IndexError =
    | UnknownEmbedProvider(name: string)            // ValueError in _ensure_embedder
    | OpenAINotInstalled                            // RuntimeError in _ensure_embedder
    | DimensionMismatch(expected: nat, got: nat)    // FAISS refuses vectors of another width
    | NonPositiveTopK(k: int)                       // FAISS refuses k <= 0
    | MetaIndexOutOfRange(id: int)                  // IndexError from self._meta[idx]
    | EmptyIndexDir                                 // FileNotFoundError from os.makedirs("")

  predicate SlotsWellFormed(slots: seq<Slot>, count: nat, k: nat) {
    && |slots| == k
    && forall i :: 0 <= i < |slots| ==> slots[i].id == -1 || 0 <= slots[i].id < count
  }

  /**
   * The foreign code: `encode` is the embedding model (one vector per text), `knn` is the
   * inner-product top-k search over the stored vectors, `openaiInstalled` says whether the
   * `openai` package could be imported.
   */
  datatype Engine = Engine(
    encode: string -> Vector,
    dim: nat,
    knn: (seq<Vector>, Vector, nat) -> seq<Slot>,
    openaiInstalled: bool)
  {
    /** Every text embeds to `dim` numbers; a search returns k slots, each -1 or a stored position. */
    ghost predicate Valid() {
      && (forall t :: |encode(t)| == dim)
      && (forall vs, q, k :: SlotsWellFormed(knn(vs, q, k), |vs|, k))
    }
  }

  /** `(self._index, self._meta)`. */
  datatype Store = Store(index: Option<FlatIP>, meta: seq<Entry>)

  /** Number of vectors in the structure (`ntotal`); 0 while it does not exist. */
  function Count(s: Store): nat {
    if s.index.None? then 0 else |s.index.value.vectors|
  }

  /** The invariant that makes `self._meta[idx]` safe: one metadata entry per stored vector. */
  predicate Paired(s: Store) {
    Count(s) == |s.meta|
  }

  /** `list(zip(texts, sources))`: pairs up to the shorter list. */
  function Zip(texts: seq<string>, sources: seq<string>): (r: seq<Entry>)
    ensures |r| == Min(|texts|, |sources|)
    ensures forall i :: 0 <= i < |r| ==> r[i] == Entry(texts[i], sources[i])
  {
    if texts == [] || sources == [] then []
    else [Entry(texts[0], sources[0])] + Zip(texts[1..], sources[1..])
  }

  /** The error `_ensure_embedder` raises for a provider name, if any. */
  function EmbedderError(provider: string, openaiInstalled: bool): (e: Option<IndexError>)
    ensures e.None? <==> provider == "sentence-transformers" || (provider == "openai" && openaiInstalled)
    ensures e == Some(UnknownEmbedProvider(provider)) <==> provider != "sentence-transformers" && provider != "openai"
  {
    if provider == "sentence-transformers" then None
    else if provider == "openai" then (if openaiInstalled then None else Some(OpenAINotInstalled))
    else Some(UnknownEmbedProvider(provider))
  }

  /** `_embed_texts` once the embedder exists: one vector per text, in order. */
  function Embedded(engine: Engine, texts: seq<string>): (vecs: seq<Vector>)
    ensures |vecs| == |texts|
  {
    seq(|texts|, i requires 0 <= i < |texts| => engine.encode(texts[i]))
  }

  /**
   * The state after `add` has embedded `texts` into `vecs`: the structure is created on the first
   * batch with that batch's width, the vectors are appended, and `zip(texts, sources)` is appended to
   * the metadata.
   */
  function AddVectors(s: Store, vecs: seq<Vector>, texts: seq<string>, sources: seq<string>): (r: Result<Store, IndexError>)
    requires |vecs| > 0
    ensures s.index.None? ==> r.Ok? && r.value.index.Some? && r.value.index.value.d == |vecs[0]|
    ensures s.index.Some? ==> (r.Ok? <==> |vecs[0]| == s.index.value.d)
    ensures r.Ok? ==> && r.value.index.Some?
                      && (s.index.Some? ==> r.value.index.value.d == s.index.value.d)
                      && Count(r.value) == Count(s) + |vecs|
                      && r.value.index.value.vectors[..Count(s)] == (if s.index.None? then [] else s.index.value.vectors)
                      && r.value.index.value.vectors[Count(s)..] == vecs
                      && |r.value.meta| == |s.meta| + Min(|texts|, |sources|)
                      && r.value.meta[..|s.meta|] == s.meta
                      && forall i :: 0 <= i < Min(|texts|, |sources|) ==>
                           r.value.meta[|s.meta| + i] == Entry(texts[i], sources[i])
    ensures r.Err? ==> r.error == DimensionMismatch(s.index.value.d, |vecs[0]|)
  {
    var d := |vecs[0]|;
    var ix := if s.index.None? then FlatIP(d, []) else s.index.value;
    if d != ix.d then Err(DimensionMismatch(ix.d, d))
    else Ok(Store(Some(FlatIP(ix.d, ix.vectors + vecs)), s.meta + Zip(texts, sources)))
  }

  /** The whole of `add`: embedder check, then the bookkeeping of AddVectors. */
  function AddResult(s: Store, provider: string, engine: Engine, texts: seq<string>, sources: seq<string>): (r: Result<Store, IndexError>)
    requires |texts| > 0
    ensures EmbedderError(provider, engine.openaiInstalled).Some? ==> r == Err(EmbedderError(provider, engine.openaiInstalled).value)
    ensures EmbedderError(provider, engine.openaiInstalled).None? && s.index.None? ==> r.Ok?
    ensures r.Ok? ==> && r.value.index.Some?
                      && Count(r.value) == Count(s) + |texts|
                      && r.value.meta == s.meta + Zip(texts, sources)
  {
    match EmbedderError(provider, engine.openaiInstalled)
    case Some(e) => Err(e)
    case None => AddVectors(s, Embedded(engine, texts), texts, sources)
  }

  /**
   * `add` keeps one entry per vector exactly when there are at least as many sources as texts:
   * `zip` drops the extra sources, but vectors for extra texts get no entry.
   */
  lemma AddKeepsPairing(s: Store, vecs: seq<Vector>, texts: seq<string>, sources: seq<string>)
    requires |vecs| == |texts| > 0
    requires Paired(s)
    requires AddVectors(s, vecs, texts, sources).Ok?
    ensures Paired(AddVectors(s, vecs, texts, sources).value) <==> |texts| <= |sources|
  {
  }

  /** A batch with as many sources as texts appends exactly `zip(texts, sources)` and keeps the pairing. */
  lemma AddEqualLengths(s: Store, provider: string, engine: Engine, texts: seq<string>, sources: seq<string>)
    requires engine.Valid()
    requires |texts| == |sources| > 0
    requires Paired(s)
    requires AddResult(s, provider, engine, texts, sources).Ok?
    ensures var r := AddResult(s, provider, engine, texts, sources).value;
            Paired(r) && r.meta == s.meta + Zip(texts, sources)
            && r.index.value.d == (if s.index.None? then engine.dim else s.index.value.d)
  {
    var vecs := Embedded(engine, texts);
    assert |vecs[0]| == engine.dim;
    AddKeepsPairing(s, vecs, texts, sources);
  }

  // ---------- Search ----------

  /** `self._meta[idx]` as Python evaluates it: a negative position counts from the end. */
  function MetaAt(meta: seq<Entry>, id: int): (r: Option<Entry>)
    ensures r.Some? <==> -|meta| <= id < |meta|
    ensures r.Some? ==> r.value == meta[(id + |meta|) % |meta|]
  {
    if 0 <= id < |meta| then Some(meta[id])
    else if -|meta| <= id < 0 then Some(meta[|meta| + id])
    else None
  }

  /**
   * The hits the result loop of `search` collects from `slots`, skipping -1;
   * the first slot whose position is not in `_meta` raises IndexError.
   */
  function HitsOf(meta: seq<Entry>, slots: seq<Slot>): (r: Result<seq<Hit>, IndexError>)
    ensures r.Ok? ==> |r.value| <= |slots|
    decreases |slots|
  {
    if slots == [] then Ok([])
    else
      var prev := HitsOf(meta, slots[..|slots| - 1]);
      var last := slots[|slots| - 1];
      if prev.Err? || last.id == -1 then prev
      else match MetaAt(meta, last.id)
        case None => Err(MetaIndexOutOfRange(last.id))
        case Some(e) => Ok(prev.value + [Hit(e.text, e.source, last.score)])
  }

  /** The slots that are not -1, in ranking order. */
  function Kept(slots: seq<Slot>): (r: seq<Slot>)
    decreases |slots|
  {
    if slots == [] then []
    else
      var prev := Kept(slots[..|slots| - 1]);
      if slots[|slots| - 1].id == -1 then prev else prev + [slots[|slots| - 1]]
  }

  /** Once a slot raises, the later slots are never looked at. */
  lemma {:induction false} HitsOfErrorStops(meta: seq<Entry>, slots: seq<Slot>, i: nat)
    requires i <= |slots|
    requires HitsOf(meta, slots[..i]).Err?
    ensures HitsOf(meta, slots) == HitsOf(meta, slots[..i])
    decreases |slots| - i
  {
    if i < |slots| {
      assert slots[..i + 1][..i] == slots[..i];
      HitsOfErrorStops(meta, slots, i + 1);
    } else {
      assert slots[..i] == slots;
    }
  }

  /** Kept is an order-preserving filter: it distributes over concatenation and keeps at most every slot. */
  lemma {:induction false} KeptAppend(a: seq<Slot>, b: seq<Slot>)
    ensures Kept(a + b) == Kept(a) + Kept(b)
    ensures |Kept(a)| <= |a|
    ensures forall i :: 0 <= i < |Kept(a)| ==> Kept(a)[i].id != -1 && Kept(a)[i] in a
    decreases |b|, |a|
  {
    if b != [] {
      assert (a + b)[..|a + b| - 1] == a + b[..|b| - 1];
      KeptAppend(a, b[..|b| - 1]);
      assert Kept(b) == Kept(b[..|b| - 1]) + (if b[|b| - 1].id == -1 then [] else [b[|b| - 1]]);
    } else {
      assert a + b == a;
      if a != [] {
        KeptAppend(a[..|a| - 1], []);
        forall i | 0 <= i < |Kept(a)| ensures Kept(a)[i].id != -1 && Kept(a)[i] in a {
          if i < |Kept(a[..|a| - 1])| {
            assert Kept(a)[i] in a[..|a| - 1];
          }
        }
      }
    }
  }

  /** The result loop raises exactly when some slot other than -1 is not a position of `_meta`. */
  lemma {:induction false} HitsOfOkIff(meta: seq<Entry>, slots: seq<Slot>)
    ensures HitsOf(meta, slots).Ok? <==>
            forall i :: 0 <= i < |slots| ==> slots[i].id == -1 || MetaAt(meta, slots[i].id).Some?
    decreases |slots|
  {
    if slots != [] {
      var init := slots[..|slots| - 1];
      HitsOfOkIff(meta, init);
      assert forall i :: 0 <= i < |init| ==> init[i] == slots[i];
    }
  }

  /**
   * A successful search returns one hit per kept slot, in ranking order, each carrying the
   * `_meta` entry at that slot's position and the slot's score.
   */
  lemma {:induction false} HitsOfMatchesKept(meta: seq<Entry>, slots: seq<Slot>)
    requires HitsOf(meta, slots).Ok?
    ensures var h := HitsOf(meta, slots).value;
            && |h| == |Kept(slots)|
            && forall i :: 0 <= i < |h| ==>
                 MetaAt(meta, Kept(slots)[i].id) == Some(Entry(h[i].text, h[i].source))
                 && h[i].score == Kept(slots)[i].score
    decreases |slots|
  {
    if slots != [] {
      HitsOfMatchesKept(meta, slots[..|slots| - 1]);
    }
  }

  /** Every hit of a successful search is a stored (text, source) entry. */
  lemma HitsAreStored(meta: seq<Entry>, slots: seq<Slot>)
    requires HitsOf(meta, slots).Ok?
    ensures var h := HitsOf(meta, slots).value;
            forall i :: 0 <= i < |h| ==> Entry(h[i].text, h[i].source) in meta
  {
    HitsOfMatchesKept(meta, slots);
  }

  /** `search` with the embedder, FAISS's checks and the result loop, as a function of the state. */
  function SearchResult(s: Store, provider: string, engine: Engine, query: string, topK: int): (r: Result<seq<Hit>, IndexError>)
    ensures r.Err? ==> s.index.Some? && s.meta != []
    ensures r.Ok? ==> forall i :: 0 <= i < |r.value| ==> Entry(r.value[i].text, r.value[i].source) in s.meta
  {
    if s.index.None? || |s.meta| == 0 then Ok([])
    else match EmbedderError(provider, engine.openaiInstalled)
      case Some(e) => Err(e)
      case None =>
        var q := engine.encode(query);
        if |q| != s.index.value.d then Err(DimensionMismatch(s.index.value.d, |q|))
        else if topK <= 0 then Err(NonPositiveTopK(topK))
        else
          var slots := engine.knn(s.index.value.vectors, q, topK);
          var hits := HitsOf(s.meta, slots);
          if hits.Err? then hits else HitsAreStored(s.meta, slots); hits
  }

  /**
   * Under the pairing invariant a search cannot raise IndexError: it returns at most `topK` hits,
   * every one a stored entry, in the order of the kept slots.
   */
  lemma PairedSearchSucceeds(s: Store, provider: string, engine: Engine, query: string, topK: int)
    requires engine.Valid() && Paired(s)
    requires s.index.Some? && s.index.value.d == engine.dim
    requires EmbedderError(provider, engine.openaiInstalled).None?
    requires topK > 0
    ensures SearchResult(s, provider, engine, query, topK).Ok?
    ensures var h := SearchResult(s, provider, engine, query, topK).value;
            |h| <= topK && forall i :: 0 <= i < |h| ==> Entry(h[i].text, h[i].source) in s.meta
  {
    if |s.meta| > 0 {
      var slots := engine.knn(s.index.value.vectors, engine.encode(query), topK);
      assert SlotsWellFormed(slots, Count(s), topK);
      HitsOfOkIff(s.meta, slots);
      HitsOfMatchesKept(s.meta, slots);
      KeptAppend(slots, []);
      HitsAreStored(s.meta, slots);
    }
  }

  // ---------- Persistence ----------

  /** `_load`: the pair is restored only when both artifacts exist; otherwise the index is empty. */
  function Loaded(indexFiles: map<string, FlatIP>, metaFiles: map<string, seq<Entry>>, dir: string): (s: Store)
    ensures dir in indexFiles && dir in metaFiles ==> s == Store(Some(indexFiles[dir]), metaFiles[dir])
    ensures !(dir in indexFiles && dir in metaFiles) ==> s == Store(None, []) && Paired(s)
  {
    if dir in indexFiles && dir in metaFiles then Store(Some(indexFiles[dir]), metaFiles[dir])
    else Store(None, [])
  }

  /** The two artifact kinds of every index directory: `index.faiss` and `meta.pkl`. */
  class Disk {
    var indexFiles: map<string, FlatIP>
    var metaFiles: map<string, seq<Entry>>

    constructor (indexFiles: map<string, FlatIP>, metaFiles: map<string, seq<Entry>>)
      ensures this.indexFiles == indexFiles && this.metaFiles == metaFiles
    {
      this.indexFiles := indexFiles;
      this.metaFiles := metaFiles;
    }
  }

  class FaissIndex {
    const disk: Disk
    const indexDir: string
    const embedProvider: string
    const engine: Engine
    var modelLoaded: bool    // self._model is not None
    var clientReady: bool    // self._openai is not None
    var index: Option<FlatIP>
    var meta: seq<Entry>

    function State(): Store
      reads this
    {
      Store(index, meta)
    }

    /**
     * The embedder flags once `_ensure_embedder` has run, given what they were before: the model
     * or the client of the configured provider is built, and a flag once set stays set.
     */
    predicate EmbedderBuilt(wasLoaded: bool, wasReady: bool)
      reads this
    {
      && modelLoaded == (wasLoaded || embedProvider == "sentence-transformers")
      && clientReady == (wasReady || (embedProvider == "openai" && engine.openaiInstalled))
    }

    /**
     * Nothing is embedded at construction, so an unknown provider goes unnoticed here. The
     * directory must be non-empty: `os.makedirs("")` raises, and the callers model that error.
     */
    constructor (disk: Disk, indexDir: string, embedProvider: string, engine: Engine)
      requires indexDir != ""
      ensures this.disk == disk && this.indexDir == indexDir
      ensures this.embedProvider == embedProvider && this.engine == engine
      ensures !modelLoaded && !clientReady
      ensures State() == Loaded(disk.indexFiles, disk.metaFiles, indexDir)
    {
      this.disk := disk;
      this.indexDir := indexDir;
      this.embedProvider := embedProvider;
      this.engine := engine;
      modelLoaded := false;
      clientReady := false;
      index := None;
      meta := [];
      new;
      Load();
    }

    method Load()
      modifies this`index, this`meta
      ensures State() == Loaded(disk.indexFiles, disk.metaFiles, indexDir)
    {
      if indexDir in disk.indexFiles && indexDir in disk.metaFiles {
        index := Some(disk.indexFiles[indexDir]);
        meta := disk.metaFiles[indexDir];
      } else {
        index := None;
        meta := [];
      }
    }

    /** `_save`: the structure is written when it exists, the metadata always. */
    method Save()
      modifies disk
      ensures disk.indexFiles == if index.Some? then old(disk.indexFiles)[indexDir := index.value] else old(disk.indexFiles)
      ensures disk.metaFiles == old(disk.metaFiles)[indexDir := meta]
    {
      if index.Some? {
        disk.indexFiles := disk.indexFiles[indexDir := index.value];
      }
      disk.metaFiles := disk.metaFiles[indexDir := meta];
    }

    method EnsureEmbedder() returns (err: Option<IndexError>)
      modifies this`modelLoaded, this`clientReady
      ensures err == EmbedderError(embedProvider, engine.openaiInstalled)
      ensures EmbedderBuilt(old(modelLoaded), old(clientReady))
    {
      if embedProvider == "sentence-transformers" {
        if !modelLoaded {
          modelLoaded := true;
        }
        err := None;
      } else if embedProvider == "openai" {
        if !engine.openaiInstalled {
          return Some(OpenAINotInstalled);
        }
        if !clientReady {
          clientReady := true;
        }
        err := None;
      } else {
        err := Some(UnknownEmbedProvider(embedProvider));
      }
    }

    method EmbedTexts(texts: seq<string>) returns (r: Result<seq<Vector>, IndexError>)
      modifies this`modelLoaded, this`clientReady
      ensures r == match EmbedderError(embedProvider, engine.openaiInstalled)
                   case Some(e) => Err(e)
                   case None => Ok(Embedded(engine, texts))
      ensures EmbedderBuilt(old(modelLoaded), old(clientReady))
    {
      var err := EnsureEmbedder();
      if err.Some? {
        return Err(err.value);
      }
      r := Ok(Embedded(engine, texts));
    }

    /**
     * `add(texts, sources)`: on success the state is AddResult of the old state and both artifacts
     * are rewritten; on any error the state and the disk are untouched.
     */
    method Add(texts: seq<string>, sources: seq<string>) returns (r: Result<(), IndexError>)
      requires |texts| > 0
      modifies this`index, this`meta, this`modelLoaded, this`clientReady, disk
      ensures EmbedderBuilt(old(modelLoaded), old(clientReady))
      ensures var res := AddResult(old(State()), embedProvider, engine, texts, sources);
              && (res.Err? ==> r == Err(res.error) && State() == old(State())
                               && disk.indexFiles == old(disk.indexFiles) && disk.metaFiles == old(disk.metaFiles))
              && (res.Ok? ==> r == Ok(()) && State() == res.value
                              && disk.indexFiles == old(disk.indexFiles)[indexDir := index.value]
                              && disk.metaFiles == old(disk.metaFiles)[indexDir := meta])
    {
      var vecs := EmbedTexts(texts);
      if vecs.Err? {
        return Err(vecs.error);
      }
      var d := |vecs.value[0]|;
      if index.None? {
        index := Some(FlatIP(d, []));
      }
      if d != index.value.d {
        return Err(DimensionMismatch(index.value.d, d));
      }
      index := Some(FlatIP(index.value.d, index.value.vectors + vecs.value));
      meta := meta + Zip(texts, sources);
      Save();
      r := Ok(());
    }

    /** `search(query, top_k)`: the result loop walks the slots FAISS returns. */
    method Search(query: string, topK: int) returns (r: Result<seq<Hit>, IndexError>)
      modifies this`modelLoaded, this`clientReady
      ensures r == SearchResult(State(), embedProvider, engine, query, topK)
      ensures (index.None? || meta == []) ==> modelLoaded == old(modelLoaded) && clientReady == old(clientReady)
      ensures index.Some? && meta != [] ==> EmbedderBuilt(old(modelLoaded), old(clientReady))
    {
      if index.None? || |meta| == 0 {
        return Ok([]);
      }
      var q := EmbedTexts([query]);
      if q.Err? {
        return Err(q.error);
      }
      var qv := q.value[0];
      var ix := index.value;
      if |qv| != ix.d {
        return Err(DimensionMismatch(ix.d, |qv|));
      }
      if topK <= 0 {
        return Err(NonPositiveTopK(topK));
      }
      var slots := engine.knn(ix.vectors, qv, topK);
      var results := [];
      var i := 0;
      while i < |slots|
        invariant 0 <= i <= |slots|
        invariant HitsOf(meta, slots[..i]) == Ok(results)
      {
        var slot := slots[i];
        assert slots[..i + 1][..i] == slots[..i];
        if slot.id != -1 {
          if !(-|meta| <= slot.id < |meta|) {
            HitsOfErrorStops(meta, slots, i + 1);
            return Err(MetaIndexOutOfRange(slot.id));
          }
          var e := meta[if slot.id < 0 then |meta| + slot.id else slot.id];
          results := results + [Hit(e.text, e.source, slot.score)];
        }
        i := i + 1;
      }
      assert slots[..|slots|] == slots;
      r := Ok(results);
    }
  }

  /** After a successful add, loading the same directory again yields exactly the state add left. */
  lemma SaveLoadRoundTrip(indexFiles: map<string, FlatIP>, metaFiles: map<string, seq<Entry>>, dir: string, s: Store)
    requires s.index.Some?
    ensures Loaded(indexFiles[dir := s.index.value], metaFiles[dir := s.meta], dir) == s
  {
  }
}
