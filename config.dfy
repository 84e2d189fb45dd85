/** The settings backend/app/config.py reads from the environment once, at start-up. */
module Config {
  import opened Wrappers

  datatype Settings = Settings(
    llmProvider: string,            // LLM_PROVIDER
    openaiApiKey: Option<string>,   // OPENAI_API_KEY
    openaiModel: string,            // OPENAI_MODEL
    ollamaModel: string,            // OLLAMA_MODEL
    embeddingsProvider: string,     // EMBEDDINGS_PROVIDER
    indexDir: string,               // INDEX_DIR
    topK: int)                      // TOP_K

  /** The values used when the environment sets none of the variables. */
  const Defaults: Settings :=
    Settings("openai", None, "gpt-4o-mini", "llama3.1", "sentence-transformers", "./backend_index", 5)
}
