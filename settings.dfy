/**
 * The model-settings popover: four local selections start from the session's
 * model fields, are sent under fixed keys, and are written back to the session
 * only when the backend accepts them.
 */
module Settings {
  import opened Wrappers
  import opened Common
  import Page

  /** The body sent to `api/set_models`, under the keys the client uses. */
  function ModelPayload(embeddingModelName: string, embeddingModelApiKey: string, llmName: string, llmApiKey: string)
    : (m: map<string, ArgValue>)
    ensures m.Keys == {"embedding_model_name", "EmbeddingModelAPIKey", "llm_name", "llm_api_key"}
    ensures m["embedding_model_name"] == StrArg(embeddingModelName)
    ensures m["EmbeddingModelAPIKey"] == StrArg(embeddingModelApiKey)
    ensures m["llm_name"] == StrArg(llmName) && m["llm_api_key"] == StrArg(llmApiKey)
  {
    map["embedding_model_name" := StrArg(embeddingModelName),
        "EmbeddingModelAPIKey" := StrArg(embeddingModelApiKey),
        "llm_name" := StrArg(llmName),
        "llm_api_key" := StrArg(llmApiKey)]
  }

  class Popover {
    var selectEmbeddingModel: string
    var embeddingModelApiKey: string
    var selectLlm: string
    var llmApiKey: string
    const session: Page.Session

    /** The local selections start as the session's four model fields. */
    constructor (session: Page.Session)
      ensures this.session == session
      ensures selectEmbeddingModel == session.config.embeddingModelName
      ensures embeddingModelApiKey == session.config.embeddingModelApiKey
      ensures selectLlm == session.config.llmName && llmApiKey == session.config.llmApiKey
    {
      this.session := session;
      selectEmbeddingModel := session.config.embeddingModelName;
      embeddingModelApiKey := session.config.embeddingModelApiKey;
      selectLlm := session.config.llmName;
      llmApiKey := session.config.llmApiKey;
    }

    /**
     * Saving: the four selections are sent; on success exactly the four model fields
     * take them, on failure the session is untouched; the reply's message is shown
     * either way.
     */
    method HandleClick(response: RequestMessage) returns (request: Request, alert: string)
      modifies session`config
      ensures request == Request("api/set_models",
                Fields(ModelPayload(selectEmbeddingModel, embeddingModelApiKey, selectLlm, llmApiKey)), Some(3000))
      ensures response.state ==>
                session.config == old(session.config).(
                  embeddingModelName := selectEmbeddingModel, embeddingModelApiKey := embeddingModelApiKey,
                  llmName := selectLlm, llmApiKey := llmApiKey)
      ensures !response.state ==> session.config == old(session.config)
      ensures alert == response.message
    {
      var modelConfig := ModelPayload(selectEmbeddingModel, embeddingModelApiKey, selectLlm, llmApiKey);
      request := Request("api/set_models", Fields(modelConfig), Some(3000));
      if response.state {
        session.config := session.config.(
          embeddingModelName := selectEmbeddingModel, embeddingModelApiKey := embeddingModelApiKey,
          llmName := selectLlm, llmApiKey := llmApiKey);
      }
      alert := response.message;
    }
  }
}
