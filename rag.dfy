/**
 * `RAGPipeline` of backend/app/rag.py: top-k retrieval, the grounding prompt handed to the
 * language model, and the projection of hits into contexts and sources.
 */
module Rag {
  import opened Wrappers
  import opened Text
  import opened Config
  import opened VectorFaiss

  /**
   * The fixed system instruction, the same for every question and every context: answer only
   * from the context, admit not knowing, and cite file names in square brackets.
   */
  function SystemInstruction(): (s: string)
    ensures OccursAt(s, "Answer strictly using the provided context.", 43)
    ensures OccursAt(s, "If unknown, say you don't know.", 87)
    ensures OccursAt(s, "Cite filenames in square brackets like [source].", |s| - 48)
  {
    var role := "You are an enterprise knowledge assistant. ";
    var grounded := "Answer strictly using the provided context.";
    var unknown := "If unknown, say you don't know.";
    var cite := "Cite filenames in square brackets like [source].";
    var s := role + grounded + " " + unknown + " " + cite;
    assert s[43..43 + |grounded|] == grounded;
    assert s[87..87 + |unknown|] == unknown;
    s
  }

  /** The generation backend `__init__` picks. */
  datatype Llm = OpenAiLlm(model: string) | OllamaLlm(model: string)

  /**
   * What `RAGPipeline()` raises: FileNotFoundError when INDEX_DIR is empty (`os.makedirs("")` in
   * the index constructor), or a RuntimeError while constructing the OpenAI backend.
   */
  datatype ConfigError = EmptyIndexDirectory | OpenAIPackageMissing | MissingApiKey

  predicate HasKey(key: Option<string>) {
    key.Some? && key.value != ""
  }

  /**
   * Provider selection: "openai" selects the OpenAI backend, which fails without the package or a
   * key; any other name silently selects Ollama.
   */
  function SelectLlm(settings: Settings, openaiInstalled: bool): (r: Result<Llm, ConfigError>)
    ensures settings.llmProvider != "openai" ==> r == Ok(OllamaLlm(settings.ollamaModel))
    ensures settings.llmProvider == "openai" ==> (r.Ok? <==> openaiInstalled && HasKey(settings.openaiApiKey))
    ensures r.Ok? ==> (r.value.OpenAiLlm? <==> settings.llmProvider == "openai")
  {
    if settings.llmProvider == "openai" then
      if !openaiInstalled then Err(OpenAIPackageMissing)
      else if !HasKey(settings.openaiApiKey) then Err(MissingApiKey)
      else Ok(OpenAiLlm(settings.openaiModel))
    else Ok(OllamaLlm(settings.ollamaModel))
  }

  /** `k or settings.TOP_K`: a truthy k is used; None and 0 both fall back to the default. */
  function EffectiveTopK(k: Option<int>, default: int): (r: int)
    ensures r == default || (k.Some? && r == k.value)
    ensures k.Some? && k.value != 0 ==> r == k.value
    ensures r == 0 ==> default == 0
  {
    if k.Some? && k.value != 0 then k.value else default
  }

  /**
   * Out of the box the OpenAI backend is chosen, so without OPENAI_API_KEY the pipeline cannot be
   * built; retrieval then asks for 5 hits.
   */
  lemma DefaultsNeedApiKey(openaiInstalled: bool, key: string)
    ensures SelectLlm(Defaults, openaiInstalled).Err?
    ensures key != "" ==> SelectLlm(Defaults.(openaiApiKey := Some(key)), true) == Ok(OpenAiLlm("gpt-4o-mini"))
    ensures EffectiveTopK(None, Defaults.topK) == 5
  {
  }

  // ---------- Decimal numbering ----------

  function DigitChar(d: nat): (c: char)
    requires d < 10
    ensures '0' <= c <= '9' && c as int - '0' as int == d
  {
    (48 + d) as char
  }

  /** Python's `str(n)` for a non-negative integer. */
  function NatToString(n: nat): (s: string)
    ensures |s| > 0
    ensures forall i :: 0 <= i < |s| ==> '0' <= s[i] <= '9'
    ensures |s| > 1 ==> s[0] != '0'
  {
    if n < 10 then [DigitChar(n)] else NatToString(n / 10) + [DigitChar(n % 10)]
  }

  predicate AllDigits(s: string) {
    forall i :: 0 <= i < |s| ==> '0' <= s[i] <= '9'
  }

  /** `int(s)` for a string of decimal digits. */
  function ParseNat(s: string): nat
    requires AllDigits(s)
  {
    if s == [] then 0 else ParseNat(s[..|s| - 1]) * 10 + (s[|s| - 1] as int - '0' as int)
  }

  /** The number printed in front of an entry reads back as that number. */
  lemma {:induction false} ParseNatToString(n: nat)
    ensures ParseNat(NatToString(n)) == n
  {
    if n >= 10 {
      var s := NatToString(n);
      assert s[..|s| - 1] == NatToString(n / 10);
      ParseNatToString(n / 10);
    }
  }

  // ---------- Prompt assembly ----------

  /**
   * `f"[{i+1}] {c}"`: the context follows a bracketed label that reads back as the one-based
   * position `i + 1`.
   */
  function NumberedEntry(i: nat, c: string): (e: string)
    ensures |e| >= |c| + 3 && e[0] == '['
    ensures e[|e| - |c| - 2..] == "] " + c
    ensures AllDigits(e[1..|e| - |c| - 2]) && ParseNat(e[1..|e| - |c| - 2]) == i + 1
  {
    var d := NatToString(i + 1);
    ParseNatToString(i + 1);
    assert AllDigits(d);
    var e := "[" + d + ("] " + c);
    assert |e| - |c| - 2 == 1 + |d|;
    assert e[1..1 + |d|] == d;
    assert e[1 + |d|..] == "] " + c;
    e
  }

  function Numbered(contexts: seq<string>): seq<string> {
    seq(|contexts|, i requires 0 <= i < |contexts| => NumberedEntry(i, contexts[i]))
  }

  /**
   * The numbered context block: entries joined by blank lines. It is empty only without contexts,
   * and entry `[i+1] c` stands at its offset for every context `c` at position `i`.
   */
  function ContextBlock(contexts: seq<string>): (b: string)
    ensures b == "" <==> contexts == []
    ensures forall i :: 0 <= i < |contexts| ==>
              OccursAt(b, NumberedEntry(i, contexts[i]), PartOffset("\n\n", Numbered(contexts), i))
  {
    JoinWithHoldsParts("\n\n", Numbered(contexts));
    assert contexts != [] ==> |NumberedEntry(0, contexts[0])| > 0;
    JoinWith("\n\n", Numbered(contexts))
  }

  /** The cue after the context block: the question, then "Answer:". */
  function QuestionCue(question: string): string {
    "\n\nQuestion: " + question + "\nAnswer:"
  }

  /**
   * A prompt grounds `question` in `contexts` when it opens with the "Context:" header, carries every
   * context numbered from 1 at its place in the context block, and ends with the question cue.
   */
  predicate Grounds(p: string, question: string, contexts: seq<string>) {
    && OccursAt(p, "Context:\n", 0)
    && (forall i :: 0 <= i < |contexts| ==>
          OccursAt(p, NumberedEntry(i, contexts[i]), 9 + PartOffset("\n\n", Numbered(contexts), i)))
    && OccursAt(p, QuestionCue(question), |p| - |QuestionCue(question)|)
  }

  /** The user prompt handed to the language model. */
  function Prompt(question: string, contexts: seq<string>): (p: string)
    ensures Grounds(p, question, contexts)
  {
    var block := ContextBlock(contexts);
    FramedBlockGrounds(question, contexts, block);
    "Context:\n" + block + QuestionCue(question)
  }

  /** Framing a block that holds every numbered entry with the header and the cue grounds the question. */
  lemma FramedBlockGrounds(question: string, contexts: seq<string>, block: string)
    requires forall i :: 0 <= i < |contexts| ==>
               OccursAt(block, NumberedEntry(i, contexts[i]), PartOffset("\n\n", Numbered(contexts), i))
    ensures Grounds("Context:\n" + block + QuestionCue(question), question, contexts)
  {
    var p := "Context:\n" + block + QuestionCue(question);
    OccursWithin("Context:\n", block, QuestionCue(question));
    forall i | 0 <= i < |contexts|
      ensures OccursAt(p, NumberedEntry(i, contexts[i]), 9 + PartOffset("\n\n", Numbered(contexts), i))
    {
      assert OccursAt(block, NumberedEntry(i, contexts[i]), PartOffset("\n\n", Numbered(contexts), i));
    }
  }

  /** The block is empty exactly when there are no contexts; a single context is entry [1]. */
  lemma ContextBlockSmall(contexts: seq<string>)
    ensures ContextBlock(contexts) == "" <==> contexts == []
    ensures |contexts| == 1 ==> ContextBlock(contexts) == "[1] " + contexts[0]
  {
    if |contexts| == 1 {
      assert DigitChar(1) == '1';
      assert NatToString(1) == "1";
      assert Numbered(contexts)[0] == "[1] " + contexts[0];
    } else if |contexts| > 1 {
      var es := Numbered(contexts);
      assert |JoinWith("\n\n", es)| >= |es[0]| > 0;
    }
  }

  /** Numbering is 1-based and contiguous: one more context adds one entry numbered one higher. */
  lemma ContextBlockSnoc(contexts: seq<string>, c: string)
    requires contexts != []
    ensures ContextBlock(contexts + [c]) == ContextBlock(contexts) + "\n\n" + NumberedEntry(|contexts|, c)
  {
    NumberedSnoc(contexts, c);
    JoinWithSnoc("\n\n", Numbered(contexts), NumberedEntry(|contexts|, c));
  }

  lemma NumberedSnoc(contexts: seq<string>, c: string)
    ensures Numbered(contexts + [c]) == Numbered(contexts) + [NumberedEntry(|contexts|, c)]
  {
    var l := Numbered(contexts + [c]);
    var r := Numbered(contexts) + [NumberedEntry(|contexts|, c)];
    assert |l| == |r|;
    forall i | 0 <= i < |l| ensures l[i] == r[i] {
      if i < |contexts| {
        assert (contexts + [c])[i] == contexts[i];
      }
    }
  }

  /** With no hits the block is empty and the prompt is the bare template around the question. */
  lemma PromptWithoutHits(question: string)
    ensures Prompt(question, []) == "Context:\n\n\nQuestion: " + question + "\nAnswer:"
  {
    ContextBlockSmall([]);
  }

  // ---------- Answers ----------

  /** `[h[0] for h in hits]`. */
  function Contexts(hits: seq<Hit>): (cs: seq<string>)
    ensures |cs| == |hits|
    ensures forall i :: 0 <= i < |hits| ==> cs[i] == hits[i].text
  {
    seq(|hits|, i requires 0 <= i < |hits| => hits[i].text)
  }

  /** `[h[1] for h in hits]`: one source per hit, duplicates kept. */
  function Sources(hits: seq<Hit>): (ss: seq<string>)
    ensures |ss| == |hits|
    ensures forall i :: 0 <= i < |hits| ==> ss[i] == hits[i].source
  {
    seq(|hits|, i requires 0 <= i < |hits| => hits[i].source)
  }

  datatype Answer = Answer(answer: string, sources: seq<string>)

  /** `ask(question)`: retrieve with the default k, generate from the hit texts, return the hit sources. */
  function AskResult(s: Store, provider: string, engine: Engine, llm: Llm,
                     complete: (Llm, string, string) -> string, topK: int, question: string): (r: Result<Answer, IndexError>)
    ensures s.index.None? || s.meta == [] ==> r.Ok? && r.value.sources == []
    ensures r.Ok? ==> forall i :: 0 <= i < |r.value.sources| ==> exists e :: e in s.meta && e.source == r.value.sources[i]
  {
    match SearchResult(s, provider, engine, question, EffectiveTopK(None, topK))
    case Err(e) => Err(e)
    case Ok(hits) =>
      assert forall i :: 0 <= i < |hits| ==> Sources(hits)[i] == hits[i].source;
      Ok(Answer(complete(llm, SystemInstruction(), Prompt(question, Contexts(hits))), Sources(hits)))
  }

  /** Each returned context/source pair is a stored metadata entry; the two lists stay parallel. */
  lemma AskAnswersFromStore(s: Store, provider: string, engine: Engine, llm: Llm,
                            complete: (Llm, string, string) -> string, topK: int, question: string)
    requires AskResult(s, provider, engine, llm, complete, topK, question).Ok?
    ensures var k := EffectiveTopK(None, topK);
            var hits := SearchResult(s, provider, engine, question, k).value;
            && AskResult(s, provider, engine, llm, complete, topK, question).value.sources == Sources(hits)
            && forall i :: 0 <= i < |hits| ==> Entry(Contexts(hits)[i], Sources(hits)[i]) in s.meta
  {
    var k := EffectiveTopK(None, topK);
    if s.index.Some? && |s.meta| > 0 {
      var q := engine.encode(question);
      if |q| == s.index.value.d && k > 0 && EmbedderError(provider, engine.openaiInstalled).None? {
        HitsAreStored(s.meta, engine.knn(s.index.value.vectors, q, k));
      }
    }
  }

  /** On an empty index the model is still asked, with an empty context block, and no sources come back. */
  lemma AskOnEmptyIndex(s: Store, provider: string, engine: Engine, llm: Llm,
                        complete: (Llm, string, string) -> string, topK: int, question: string)
    requires s.index.None? || s.meta == []
    ensures AskResult(s, provider, engine, llm, complete, topK, question)
            == Ok(Answer(complete(llm, SystemInstruction(), "Context:\n\n\nQuestion: " + question + "\nAnswer:"), []))
  {
    PromptWithoutHits(question);
    assert Contexts([]) == [];
    assert Sources([]) == [];
  }

  class RagPipeline {
    const index: FaissIndex
    const llm: Llm
    const topK: int                                   // settings.TOP_K
    const complete: (Llm, string, string) -> string   // the backend's generate(system, prompt)

    constructor (index: FaissIndex, llm: Llm, topK: int, complete: (Llm, string, string) -> string)
      ensures this.index == index && this.llm == llm && this.topK == topK && this.complete == complete
    {
      this.index := index;
      this.llm := llm;
      this.topK := topK;
      this.complete := complete;
    }

    method Retrieve(query: string, k: Option<int>) returns (r: Result<seq<Hit>, IndexError>)
      modifies index`modelLoaded, index`clientReady
      ensures r == SearchResult(index.State(), index.embedProvider, index.engine, query, EffectiveTopK(k, topK))
      ensures index.index.None? || index.meta == [] ==>
                index.modelLoaded == old(index.modelLoaded) && index.clientReady == old(index.clientReady)
      ensures index.index.Some? && index.meta != [] ==> index.EmbedderBuilt(old(index.modelLoaded), old(index.clientReady))
    {
      r := index.Search(query, EffectiveTopK(k, topK));
    }

    /**
     * `generate(question, contexts)`: the backend is asked, under the fixed system instruction, a
     * prompt that grounds the question in every context.
     */
    function Generate(question: string, contexts: seq<string>): (answer: string)
      ensures exists p :: Grounds(p, question, contexts) && answer == complete(llm, SystemInstruction(), p)
    {
      complete(llm, SystemInstruction(), Prompt(question, contexts))
    }

    method Ask(question: string) returns (r: Result<Answer, IndexError>)
      modifies index`modelLoaded, index`clientReady
      ensures r == AskResult(index.State(), index.embedProvider, index.engine, llm, complete, topK, question)
      ensures index.index.None? || index.meta == [] ==>
                index.modelLoaded == old(index.modelLoaded) && index.clientReady == old(index.clientReady)
      ensures index.index.Some? && index.meta != [] ==> index.EmbedderBuilt(old(index.modelLoaded), old(index.clientReady))
    {
      var hits := Retrieve(question, None);
      if hits.Err? {
        return Err(hits.error);
      }
      var contexts := Contexts(hits.value);
      var sources := Sources(hits.value);
      var answer := Generate(question, contexts);
      r := Ok(Answer(answer, sources));
    }
  }

  /**
   * `RAGPipeline()`: the index is opened (and loaded) first, which fails on an empty INDEX_DIR;
   * then the backend is chosen, where only the OpenAI backend can fail.
   */
  method NewRagPipeline(disk: Disk, settings: Settings, engine: Engine, complete: (Llm, string, string) -> string)
    returns (r: Result<RagPipeline, ConfigError>)
    ensures settings.indexDir == "" ==> r == Err(EmptyIndexDirectory)
    ensures settings.indexDir != "" && SelectLlm(settings, engine.openaiInstalled).Err? ==>
              r == Err(SelectLlm(settings, engine.openaiInstalled).error)
    ensures settings.indexDir != "" && SelectLlm(settings, engine.openaiInstalled).Ok? ==>
              && r.Ok? && fresh(r.value) && fresh(r.value.index)
              && r.value.llm == SelectLlm(settings, engine.openaiInstalled).value
              && r.value.topK == settings.topK && r.value.complete == complete
              && r.value.index.disk == disk && r.value.index.indexDir == settings.indexDir
              && r.value.index.embedProvider == settings.embeddingsProvider && r.value.index.engine == engine
              && r.value.index.State() == Loaded(disk.indexFiles, disk.metaFiles, settings.indexDir)
  {
    if settings.indexDir == "" {
      return Err(EmptyIndexDirectory);
    }
    var index := new FaissIndex(disk, settings.indexDir, settings.embeddingsProvider, engine);
    var llm := SelectLlm(settings, engine.openaiInstalled);
    if llm.Err? {
      return Err(llm.error);
    }
    var p := new RagPipeline(index, llm.value, settings.topK, complete);
    r := Ok(p);
  }
}
