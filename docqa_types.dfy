/**
 * The backend's records: a LangChain message, the constructed chat-model client,
 * the result envelope every backend function returns, and the server-side
 * document configuration with its pydantic defaults.
 */
module DocQaTypes {
  import opened Wrappers

  /** A chat message as the graph stores it: its `type`, its content and the ids of the tool calls it requests. */
  datatype LcMessage = LcMessage(msgType: string, content: string, toolCalls: seq<string>)

  datatype Provider = DeepSeek | OpenAI

  /** A chat-model client as constructed: provider, model, temperature, retries and key. */
  datatype LlmClient = LlmClient(provider: Provider, model: string, temperature: int, maxRetries: int, apiKey: string)

  /** An embedding-model client as constructed: a local Ollama model or the hosted one with its key. */
  datatype EmbeddingClient = OllamaEmbeddings(model: string) | OpenAIEmbeddings(apiKey: string)

  /**
   * A compiled retrieve-then-generate graph: the chat model and vector store it
   * closes over and the messages its memory saver holds for its one thread.
   */
  datatype RagGraph = RagGraph(llm: LlmClient, vectorStore: nat, memory: seq<LcMessage>)

  /** A value under `addition_args` on the server side. */
  datatype PyValue =
    | PyStr(s: string)
    | PyBool(b: bool)
    | PyNone
    | PyLlm(llm: LlmClient)
    | PyEmbedding(embedding: EmbeddingClient)
    | PyGraph(graph: RagGraph)
    | PyRunConfig(threadId: string)
    | PyError(text: string)

  datatype InvokeResponse = InvokeResponse(
    source: string,
    state: bool,
    message: string,
    additionArgs: Option<map<string, PyValue>>)

  /**
   * The server-side session record; every field is optional. The vector store and
   * the graph record are built by endpoints that are not part of this model and
   * appear as handles.
   */
  datatype DocConfig = DocConfig(
    fileName: Option<string>,
    tmpFilePath: Option<string>,
    lanuage: Option<string>,
    embeddingModelName: Option<string>,
    embeddingModel: Option<EmbeddingClient>,
    embeddingModelApiKey: Option<string>,
    llmName: Option<string>,
    llmApiKey: Option<string>,
    llmModel: Option<LlmClient>,
    graph: Option<nat>,
    vectorStore: Option<nat>,
    vectorCachePath: Option<string>,
    chatHistory: Option<seq<LcMessage>>)

  /** The field defaults: everything None and an empty chat history. */
  function DefaultDocConfig(): DocConfig
  {
    DocConfig(None, None, None, None, None, None, None, None, None, None, None, None, Some([]))
  }

  /** A Python `Optional[str]` as a JSON value. */
  function OptStr(o: Option<string>): PyValue
  {
    if o.Some? then PyStr(o.value) else PyNone
  }
}

/**
 * The backend's global state: the current document configuration and, standing
 * in for the filesystem, the uploaded temporary files and the saved history
 * records, each keyed by path.
 */
module ServerState {
  import opened Wrappers
  import opened DocQaTypes

  datatype SavedMessage = SavedMessage(role: string, message: string)

  /** The JSON record written for a document being left. */
  datatype SavedDoc = SavedDoc(
    fileName: string,
    tmpFilePath: Option<string>,
    lanuage: Option<string>,
    embeddingModelName: Option<string>,
    llmName: Option<string>,
    vectorCachePath: Option<string>,
    chatHistory: seq<SavedMessage>)

  class Backend {
    var config: DocConfig
    var tempFiles: map<string, nat>
    var historyFiles: map<string, SavedDoc>
    const tempDir: string
    const historyDir: string

    constructor (tempDir: string, historyDir: string)
      ensures this.tempDir == tempDir && this.historyDir == historyDir
      ensures config == DefaultDocConfig() && tempFiles == map[] && historyFiles == map[]
    {
      this.tempDir, this.historyDir := tempDir, historyDir;
      config := DefaultDocConfig();
      tempFiles, historyFiles := map[], map[];
    }

    /** Resetting the configuration to its defaults; the files are not touched. */
    method InitDocConfig()
      modifies this`config
      ensures config == DefaultDocConfig()
    {
      config := DefaultDocConfig();
    }
  }
}
