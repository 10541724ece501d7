/**
 * The settings endpoints. `/set_models` validates its body, rebuilds the chat
 * model only when its name or key changed and the embedding model only when its
 * name or key changed, and stops at the first failed build. `/set_lanuage`
 * stores a non-empty document language.
 */
module SettingApi {
  import opened Wrappers
  import opened DocQaTypes
  import opened ServerState
  import Common
  import Settings
  import RagModels

  /** The validated body of `/set_models`. */
  datatype ModelConfig = ModelConfig(
    embeddingModelName: string,
    embeddingModelApiKey: Option<string>,
    llmName: string,
    llmApiKey: string)

  /**
   * Request validation: the three required fields must be strings; the optional
   * embedding key may be missing or null; keys the record does not declare are
   * ignored. None is a rejected request, which never reaches the handler.
   */
  function ParseModelConfig(body: map<string, Common.ArgValue>): (r: Option<ModelConfig>)
    ensures r.Some? ==>
              Common.StringArg(body, "embedding_model_name") == Some(r.value.embeddingModelName)
              && Common.StringArg(body, "llm_name") == Some(r.value.llmName)
              && Common.StringArg(body, "llm_api_key") == Some(r.value.llmApiKey)
    ensures r.Some? ==>
              (r.value.embeddingModelApiKey.Some? <==>
                 "embedding_model_api_key" in body && body["embedding_model_api_key"].StrArg?)
    ensures r.None? <==>
              Common.StringArg(body, "embedding_model_name").None?
              || Common.StringArg(body, "llm_name").None?
              || Common.StringArg(body, "llm_api_key").None?
              || ("embedding_model_api_key" in body
                  && !body["embedding_model_api_key"].StrArg? && !body["embedding_model_api_key"].NullArg?)
  {
    var embeddingModelName := Common.StringArg(body, "embedding_model_name");
    var llmName := Common.StringArg(body, "llm_name");
    var llmApiKey := Common.StringArg(body, "llm_api_key");
    var keyValid := "embedding_model_api_key" !in body
                    || body["embedding_model_api_key"].StrArg? || body["embedding_model_api_key"].NullArg?;
    if embeddingModelName.Some? && llmName.Some? && llmApiKey.Some? && keyValid then
      Some(ModelConfig(embeddingModelName.value, Common.StringArg(body, "embedding_model_api_key"),
                       llmName.value, llmApiKey.value))
    else None
  }

  /** Keys the record does not declare change nothing in the validated body. */
  lemma ParseIgnoresUndeclaredKeys(body: map<string, Common.ArgValue>, key: string, value: Common.ArgValue)
    requires key !in {"embedding_model_name", "embedding_model_api_key", "llm_name", "llm_api_key"}
    ensures ParseModelConfig(body[key := value]) == ParseModelConfig(body)
  {
    var extended := body[key := value];
    assert Common.StringArg(extended, "embedding_model_name") == Common.StringArg(body, "embedding_model_name");
    assert Common.StringArg(extended, "llm_name") == Common.StringArg(body, "llm_name");
    assert Common.StringArg(extended, "llm_api_key") == Common.StringArg(body, "llm_api_key");
    assert Common.StringArg(extended, "embedding_model_api_key") == Common.StringArg(body, "embedding_model_api_key");
  }

  /**
   * The settings panel sends the embedding key under "EmbeddingModelAPIKey",
   * which the record does not declare: the body is accepted and the key it
   * carries is always dropped.
   */
  lemma EmbeddingKeyNeverArrives(embeddingModelName: string, embeddingModelApiKey: string, llmName: string, llmApiKey: string)
    ensures ParseModelConfig(Settings.ModelPayload(embeddingModelName, embeddingModelApiKey, llmName, llmApiKey))
            == Some(ModelConfig(embeddingModelName, None, llmName, llmApiKey))
  {
    var body := Settings.ModelPayload(embeddingModelName, embeddingModelApiKey, llmName, llmApiKey);
    assert "embedding_model_api_key" !in body;
  }

  /**
   * `build_embedding_model`: "llama3" needs no key; "OpenAIEmbeddings" needs one
   * and fails without it before anything is constructed; other names are not
   * supported. `constructError` is what a constructor raises.
   */
  function BuildEmbeddingModel(name: string, apiKey: Option<string>, constructError: Option<string>)
    : (r: InvokeResponse)
    ensures r.source == "build_embedding_model"
    ensures r.state <==>
              constructError.None? && (name == "llama3" || (name == "OpenAIEmbeddings" && apiKey.Some?))
    ensures r.state ==>
              r.additionArgs.Some? && r.additionArgs.value.Keys == {"embedding_model_name", "embedding_model"}
              && r.additionArgs.value["embedding_model_name"] == PyStr(name)
              && r.additionArgs.value["embedding_model"]
                 == PyEmbedding(if name == "llama3" then OllamaEmbeddings("llama3") else OpenAIEmbeddings(apiKey.value))
    ensures name == "OpenAIEmbeddings" && apiKey.None? ==> r.message == "请输入OpenAIEmbeddings的API Key！"
    ensures name != "llama3" && name != "OpenAIEmbeddings" ==> r.message == "暂不支持" + name + "！"
  {
    var source := "build_embedding_model";
    if name == "llama3" then
      if constructError.Some? then InvokeResponse(source, false, "创建编码用模型失败！\n" + constructError.value, None)
      else InvokeResponse(source, true, "链接" + name + "成功！",
             Some(map["embedding_model_name" := PyStr(name), "embedding_model" := PyEmbedding(OllamaEmbeddings("llama3"))]))
    else if name == "OpenAIEmbeddings" then
      if apiKey.None? then InvokeResponse(source, false, "请输入" + name + "的API Key！", None)
      else if constructError.Some? then InvokeResponse(source, false, "创建编码用模型失败！\n" + constructError.value, None)
      else InvokeResponse(source, true, "链接" + name + "成功！",
             Some(map["embedding_model_name" := PyStr(name), "embedding_model" := PyEmbedding(OpenAIEmbeddings(apiKey.value))]))
    else InvokeResponse(source, false, "暂不支持" + name + "！", None)
  }

  /** Choosing the hosted embedding model in the settings panel can never succeed, whatever key is typed. */
  lemma HostedEmbeddingUnreachable(embeddingModelApiKey: string, llmName: string, llmApiKey: string, constructError: Option<string>)
    ensures var setting := ParseModelConfig(Settings.ModelPayload("OpenAIEmbeddings", embeddingModelApiKey, llmName, llmApiKey));
            setting.Some?
            && BuildEmbeddingModel("OpenAIEmbeddings", setting.value.embeddingModelApiKey, constructError)
               == InvokeResponse("build_embedding_model", false, "请输入OpenAIEmbeddings的API Key！", None)
  {
    EmbeddingKeyNeverArrives("OpenAIEmbeddings", embeddingModelApiKey, llmName, llmApiKey);
  }

  /** The stored chat model differs from the requested one, by name or by key. */
  predicate LlmChanged(setting: ModelConfig, config: DocConfig)
  {
    config.llmName != Some(setting.llmName) || config.llmApiKey != Some(setting.llmApiKey)
  }

  /** The stored embedding model differs from the requested one, by name or by key. */
  predicate EmbeddingChanged(setting: ModelConfig, config: DocConfig)
  {
    config.embeddingModelName != Some(setting.embeddingModelName)
    || config.embeddingModelApiKey != setting.embeddingModelApiKey
  }

  /** The configuration with its four model-object fields put back as in `other`. */
  function ModelFieldsFrom(config: DocConfig, other: DocConfig): DocConfig
  {
    config.(llmName := other.llmName, llmModel := other.llmModel, llmApiKey := other.llmApiKey,
            embeddingModelName := other.embeddingModelName, embeddingModel := other.embeddingModel)
  }

  /**
   * `config_set_model`. `llmError` and `embeddingError` are what the client
   * constructors raise. The chat model is handled first; its failure returns at
   * once, while an embedding failure after a successful chat-model rebuild keeps
   * the new chat model (a partial update). The embedding key is never written.
   */
  method ConfigSetModel(backend: Backend, setting: ModelConfig, llmError: Option<string>, embeddingError: Option<string>)
    returns (result: InvokeResponse)
    modifies backend`config
    ensures result.source == "config_set_model" && result.additionArgs.None?
    ensures ModelFieldsFrom(backend.config, old(backend.config)) == old(backend.config)
    ensures backend.config.embeddingModelApiKey == old(backend.config.embeddingModelApiKey)
    ensures !LlmChanged(setting, old(backend.config)) ==>
              backend.config.llmName == old(backend.config.llmName)
              && backend.config.llmModel == old(backend.config.llmModel)
              && backend.config.llmApiKey == old(backend.config.llmApiKey)
    ensures LlmChanged(setting, old(backend.config)) && !(setting.llmName in RagModels.SUPPORTED_LLMS && llmError.None?) ==>
              !result.state
              && result.message == "build_llm: " + (if setting.llmName in RagModels.SUPPORTED_LLMS
                                                    then "链接" + setting.llmName + "出错！\n" + llmError.value
                                                    else "暂不支持" + setting.llmName + "！")
              && backend.config == old(backend.config)
    ensures LlmChanged(setting, old(backend.config)) && setting.llmName in RagModels.SUPPORTED_LLMS && llmError.None? ==>
              backend.config.llmName == Some(setting.llmName)
              && backend.config.llmModel == Some(RagModels.LlmFor(setting.llmName, setting.llmApiKey))
              && backend.config.llmApiKey == Some(setting.llmApiKey)
    ensures !EmbeddingChanged(setting, old(backend.config)) ==>
              backend.config.embeddingModelName == old(backend.config.embeddingModelName)
              && backend.config.embeddingModel == old(backend.config.embeddingModel)
    ensures var embedding := BuildEmbeddingModel(setting.embeddingModelName, setting.embeddingModelApiKey, embeddingError);
            (!LlmChanged(setting, old(backend.config)) || (setting.llmName in RagModels.SUPPORTED_LLMS && llmError.None?))
            && EmbeddingChanged(setting, old(backend.config)) && !embedding.state ==>
              !result.state && result.message == "build_embedding_model: " + embedding.message
              && backend.config.embeddingModelName == old(backend.config.embeddingModelName)
              && backend.config.embeddingModel == old(backend.config.embeddingModel)
    ensures var embedding := BuildEmbeddingModel(setting.embeddingModelName, setting.embeddingModelApiKey, embeddingError);
            (!LlmChanged(setting, old(backend.config)) || (setting.llmName in RagModels.SUPPORTED_LLMS && llmError.None?))
            && EmbeddingChanged(setting, old(backend.config)) && embedding.state ==>
              backend.config.embeddingModelName == Some(setting.embeddingModelName)
              && backend.config.embeddingModel == Some(embedding.additionArgs.value["embedding_model"].embedding)
    ensures var embedding := BuildEmbeddingModel(setting.embeddingModelName, setting.embeddingModelApiKey, embeddingError);
            result.state <==>
              (!LlmChanged(setting, old(backend.config)) || (setting.llmName in RagModels.SUPPORTED_LLMS && llmError.None?))
              && (!EmbeddingChanged(setting, old(backend.config)) || embedding.state)
    ensures result.state ==>
              result.message == "配置模型成功！"
              && backend.config.llmName == Some(setting.llmName)
              && backend.config.llmApiKey == Some(setting.llmApiKey)
              && backend.config.embeddingModelName == Some(setting.embeddingModelName)
  {
    result := InvokeResponse("config_set_model", true, "配置模型成功！", None);
    ghost var before := backend.config;
    if Some(setting.llmName) != backend.config.llmName || Some(setting.llmApiKey) != backend.config.llmApiKey {
      var buildLlmResult := RagModels.BuildLlm(setting.llmName, setting.llmApiKey, llmError);
      if buildLlmResult.state && buildLlmResult.additionArgs.Some? {
        var args := buildLlmResult.additionArgs.value;
        assert args["llm_name"].s == setting.llmName;
        backend.config := backend.config.(llmName := Some(args["llm_name"].s), llmModel := Some(args["llm"].llm),
                                          llmApiKey := Some(setting.llmApiKey));
      } else {
        result := result.(state := false, message := buildLlmResult.source + ": " + buildLlmResult.message);
        return;
      }
    }
    ghost var afterLlm := backend.config;
    assert ModelFieldsFrom(afterLlm, before) == before;
    assert afterLlm.embeddingModelName == before.embeddingModelName && afterLlm.embeddingModel == before.embeddingModel;
    assert afterLlm.llmName == Some(setting.llmName) && afterLlm.llmApiKey == Some(setting.llmApiKey);
    if Some(setting.embeddingModelName) != backend.config.embeddingModelName
       || setting.embeddingModelApiKey != backend.config.embeddingModelApiKey {
      var buildEmbeddingResult := BuildEmbeddingModel(setting.embeddingModelName, setting.embeddingModelApiKey, embeddingError);
      if buildEmbeddingResult.state && buildEmbeddingResult.additionArgs.Some? {
        var args := buildEmbeddingResult.additionArgs.value;
        assert args["embedding_model_name"].s == setting.embeddingModelName;
        backend.config := backend.config.(embeddingModelName := Some(args["embedding_model_name"].s),
                                          embeddingModel := Some(args["embedding_model"].embedding));
      } else {
        result := result.(state := false, message := buildEmbeddingResult.source + ": " + buildEmbeddingResult.message);
        return;
      }
    }
  }

  /** `config_set_lanuage`: a non-empty language is stored and echoed; an empty one is refused. */
  method ConfigSetLanuage(backend: Backend, lanuage: string) returns (result: InvokeResponse)
    modifies backend`config
    ensures lanuage != [] ==>
              result == InvokeResponse("config_set_lanuage", true, "已设置为" + lanuage, None)
              && backend.config == old(backend.config).(lanuage := Some(lanuage))
    ensures lanuage == [] ==>
              result == InvokeResponse("config_set_lanuage", false, "未设置语言！", None)
              && backend.config == old(backend.config)
  {
    result := InvokeResponse("config_set_lanuage", true, "已设置为" + lanuage, None);
    if |lanuage| > 0 {
      backend.config := backend.config.(lanuage := Some(lanuage));
    } else {
      result := result.(state := false, message := "未设置语言！");
    }
  }

  /**
   * A fresh backend configured from the settings panel with a supported chat
   * model and the local embedding model: both are built, and the key typed for
   * the embedding model is not stored.
   */
  method ConfigureScenario(tempDir: string, historyDir: string, typedKey: string)
  {
    var backend := new Backend(tempDir, historyDir);
    EmbeddingKeyNeverArrives("llama3", typedKey, "gpt-4", "sk-test");
    var setting := ParseModelConfig(Settings.ModelPayload("llama3", typedKey, "gpt-4", "sk-test")).value;
    var result := ConfigSetModel(backend, setting, None, None);
    assert result.state;
    assert backend.config.embeddingModel == Some(OllamaEmbeddings("llama3"));
    assert backend.config.embeddingModelApiKey.None?;
    var again := ConfigSetModel(backend, setting, Some("unreachable"), Some("unreachable"));
    assert again.state;
  }
}
