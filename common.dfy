/** The optional value every other module uses for "absent", "null" and "NaN". */
module Wrappers {
  datatype Option<T> = None | Some(value: T)
}

/**
 * The records the web client keeps and exchanges with the backend: the session
 * record `DocConfig`, one chat turn, the reply envelope `RequestMessage`, and the
 * shape of one outgoing request (endpoint, payload, timeout).
 */
module Common {
  import opened Wrappers

  /** A value under `addition_args`: string | boolean | number | null. */
  datatype ArgValue = StrArg(s: string) | BoolArg(b: bool) | NumArg(n: int) | NullArg

  /** The reply envelope every backend call resolves to, success or not. */
  datatype RequestMessage = RequestMessage(
    source: string,
    state: bool,
    message: string,
    additionArgs: map<string, ArgValue>)

  datatype ChatMessage = ChatMessage(role: string, message: string)

  /** The client-side record of the one active document session. */
  datatype DocConfig = DocConfig(
    fileName: string,
    tmpFilePath: string,
    lanuage: string,
    embeddingModelName: string,
    embeddingModelApiKey: string,
    llmName: string,
    llmApiKey: string,
    isEmbedded: bool,
    chatHistory: seq<ChatMessage>)

  /** A file picked by the user: its name and an identity standing for its bytes. */
  datatype FileRef = FileRef(name: string, content: nat)

  /** A multipart form (possibly empty) or a JSON object of fields. */
  datatype Payload = Form(files: seq<FileRef>) | Fields(fields: map<string, ArgValue>)

  /** One call of the client wrapper: endpoint, payload and timeout in ms (None: no timeout). */
  datatype Request = Request(endpoint: string, payload: Payload, timeoutMs: Option<nat>)

  /** `typeof args[key] === "string"`: a missing key is `undefined`, not a string. */
  function StringArg(args: map<string, ArgValue>, key: string): Option<string>
  {
    if key in args && args[key].StrArg? then Some(args[key].s) else None
  }

  predicate StartsWith(s: string, prefix: string)
  {
    |prefix| <= |s| && s[..|prefix|] == prefix
  }
}

/**
 * The page that owns the shared state: the session record and the list of
 * previously uploaded files. Every component writes through these two fields.
 */
module Page {
  import opened Common

  class Session {
    var config: DocConfig
    var docsHistory: seq<FileRef>

    /**
     * The three model defaults come from the client's fixed option lists and test
     * key, which are not part of this model; everything else starts empty.
     */
    constructor (embeddingDefault: string, llmDefault: string, llmKeyDefault: string)
      ensures config.fileName == "" && config.tmpFilePath == "" && config.lanuage == ""
      ensures config.embeddingModelName == embeddingDefault && config.embeddingModelApiKey == ""
      ensures config.llmName == llmDefault && config.llmApiKey == llmKeyDefault
      ensures !config.isEmbedded && config.chatHistory == []
      ensures docsHistory == []
    {
      config := DocConfig("", "", "", embeddingDefault, "", llmDefault, llmKeyDefault, false, []);
      docsHistory := [];
    }
  }
}
