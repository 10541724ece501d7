/**
 * The retrieval-augmented answering pipeline: the chat-model client built for a
 * model name, the checks made before a graph is built, and the graph's two
 * nodes. The retrieve node turns the user's question into a search and returns
 * the found passages as one tool message; the generate node puts the trailing
 * tool messages into a system prompt ahead of the conversation proper.
 * The chat model's `invoke` and the vector store's `similarity_search` are
 * function parameters.
 */
module RagModels {
  import opened Wrappers
  import opened DocQaTypes

  const SUPPORTED_LLMS: seq<string> := ["DeepSeek-V3", "gpt-3.5-turbo", "gpt-4"]

  /** The client for a supported name: DeepSeek's chat model or the OpenAI model of that name, temperature 0, two retries. */
  function LlmFor(name: string, apiKey: string): LlmClient
    requires name in SUPPORTED_LLMS
  {
    if name == "DeepSeek-V3" then LlmClient(DeepSeek, "deepseek-chat", 0, 2, apiKey)
    else LlmClient(OpenAI, name, 0, 2, apiKey)
  }

  /**
   * `build_llm`: succeeds exactly for the three supported names when the client
   * constructor does not raise (`constructError` is what it raises). A failure
   * keeps the initial `addition_args`, whose "llm" is None.
   */
  method BuildLlm(modelName: string, apiKey: string, constructError: Option<string>)
    returns (result: InvokeResponse)
    ensures result.source == "build_llm"
    ensures result.state <==> modelName in SUPPORTED_LLMS && constructError.None?
    ensures result.state ==>
              result.message == "初始化" + modelName + "链接成功！"
              && result.additionArgs == Some(map["llm_name" := PyStr(modelName), "llm" := PyLlm(LlmFor(modelName, apiKey))])
    ensures modelName !in SUPPORTED_LLMS ==> result.message == "暂不支持" + modelName + "！"
    ensures modelName in SUPPORTED_LLMS && constructError.Some? ==>
              result.message == "链接" + modelName + "出错！\n" + constructError.value
    ensures !result.state ==>
              result.additionArgs == Some(map["llm_name" := PyStr(modelName), "llm" := PyNone])
  {
    result := InvokeResponse("build_llm", true, "初始化" + modelName + "链接成功！",
                             Some(map["llm_name" := PyStr(modelName), "llm" := PyNone]));
    if modelName == "DeepSeek-V3" || modelName == "gpt-3.5-turbo" || modelName == "gpt-4" {
      if constructError.Some? {
        result := result.(state := false, message := "链接" + modelName + "出错！\n" + constructError.value);
        return;
      }
      var client: LlmClient;
      if modelName == "DeepSeek-V3" {
        client := LlmClient(DeepSeek, "deepseek-chat", 0, 2, apiKey);
      } else {
        client := LlmClient(OpenAI, modelName, 0, 2, apiKey);
      }
      result := result.(additionArgs := Some(map["llm_name" := PyStr(modelName), "llm" := PyLlm(client)]));
    } else {
      result := result.(state := false, message := "暂不支持" + modelName + "！");
    }
  }

  /** How an f-string renders an optional string: None prints as "None". */
  function Shown(o: Option<string>): string
  {
    if o.Some? then o.value else "None"
  }

  /** The role message the graph's memory is seeded with: model name, document language and file name. */
  function InitialMessage(doc: DocConfig): (m: LcMessage)
    ensures m.msgType == "system" && m.toolCalls == []
    ensures KeptInConversation(m) && !IsHuman(m) && !IsTool(m)
  {
    LcMessage("system",
      "你是一个文档助手，用户可能会叫你" + Shown(doc.llmName) + "。"
      + "用户上传了一份" + Shown(doc.lanuage) + "文档《" + Shown(doc.fileName)
      + "》，当提到“文章”、“文档”或“论文”等时一般指的就是这个文档。"
      + "每次用户提问时，系统会先为你检索一些相关的文档内容，请你根据这些内容认真作答。"
      + "如果根据文档无法回答，就说不知道。",
      [])
  }

  /**
   * What the graph's memory holds after the seeding run: the role message, the
   * retrieve node's reply to a conversation without a question, and the chat
   * model's answer to the prompt the generate node builds from those two.
   */
  function SeededMemory(doc: DocConfig, invoke: seq<LcMessage> -> LcMessage): seq<LcMessage>
  {
    var opening := [InitialMessage(doc), LcMessage("ai", NO_QUESTION, [])];
    opening + [invoke(GeneratePrompt(opening))]
  }

  /**
   * `build_rag_graph`: the model is checked before the vector store, so a session
   * missing both is told to configure the model. Compiling the graph can raise
   * (`compileError`). The graph is then run once on the role message alone:
   * the retrieve node finds no question and the generate node asks the chat
   * model (`invoke`; `translate` and `search` are the retrieve node's calls).
   * That run can raise too (`invokeError`).
   */
  method BuildRagGraph(doc: DocConfig, compileError: Option<string>, invokeError: Option<string>,
                       translate: string -> string, search: (string, nat) -> seq<string>,
                       invoke: seq<LcMessage> -> LcMessage)
    returns (result: InvokeResponse)
    ensures result.source == "build_rag_graph"
    ensures result.state <==>
              doc.llmModel.Some? && doc.vectorStore.Some? && compileError.None? && invokeError.None?
    ensures doc.llmModel.None? ==> result.message == "请先配置模型！" && result.additionArgs.None?
    ensures doc.llmModel.Some? && doc.vectorStore.None? ==>
              result.message == "请先上传文件并构建向量库！" && result.additionArgs.None?
    ensures doc.llmModel.Some? && doc.vectorStore.Some? && compileError.Some? ==>
              result.message == "构建Graph失败！\n" + compileError.value && result.additionArgs.None?
    ensures doc.llmModel.Some? && doc.vectorStore.Some? && compileError.None? && invokeError.Some? ==>
              result.message == "构建Graph失败！\n" + invokeError.value && result.additionArgs.None?
    ensures result.state ==>
              result.message == "构建Graph成功！"
              && result.additionArgs == Some(map[
                   "graph" := PyGraph(RagGraph(doc.llmModel.value, doc.vectorStore.value, SeededMemory(doc, invoke))),
                   "graph_config" := PyRunConfig("1")])
  {
    result := InvokeResponse("build_rag_graph", true, "构建Graph成功！", None);
    if doc.llmModel.None? {
      result := result.(state := false, message := "请先配置模型！");
      return;
    } else if doc.vectorStore.None? {
      result := result.(state := false, message := "请先上传文件并构建向量库！");
      return;
    }
    if compileError.Some? {
      result := result.(state := false, message := "构建Graph失败！\n" + compileError.value);
      return;
    }
    if invokeError.Some? {
      result := result.(state := false, message := "构建Graph失败！\n" + invokeError.value);
      return;
    }
    var memory := [InitialMessage(doc)];
    assert !IsHuman(memory[0]);
    var retrieved := RetrieveNode(memory, translate, search);
    memory := memory + [retrieved];
    assert memory == [InitialMessage(doc), LcMessage("ai", NO_QUESTION, [])];
    var generated := GenerateNode(memory, invoke);
    memory := memory + [generated];
    assert memory == SeededMemory(doc, invoke);
    var graph := RagGraph(doc.llmModel.value, doc.vectorStore.value, memory);
    result := result.(additionArgs := Some(map["graph" := PyGraph(graph), "graph_config" := PyRunConfig("1")]));
  }

  /**
   * The seeding run asks no question, so when the chat model answers it with a
   * message that is not a human one, the user's first question is the one both
   * the query loop as written and the corrected one select.
   */
  lemma FirstQuestionAfterSeeding(doc: DocConfig, invoke: seq<LcMessage> -> LcMessage, question: string)
    requires !IsHuman(invoke(GeneratePrompt([InitialMessage(doc), LcMessage("ai", NO_QUESTION, [])])))
    ensures FirstHumanContent(SeededMemory(doc, invoke) + [LcMessage("human", question, [])]) == Some(question)
    ensures LastHumanContent(SeededMemory(doc, invoke) + [LcMessage("human", question, [])]) == Some(question)
  {
    var role, noQuestion := InitialMessage(doc), LcMessage("ai", NO_QUESTION, []);
    SeededMemoryShape(doc, invoke);
    QuestionAfterThreeOthers(role, noQuestion, invoke(GeneratePrompt([role, noQuestion])), question);
  }

  lemma SeededMemoryShape(doc: DocConfig, invoke: seq<LcMessage> -> LcMessage)
    ensures var role, noQuestion := InitialMessage(doc), LcMessage("ai", NO_QUESTION, []);
            SeededMemory(doc, invoke) == [role, noQuestion, invoke(GeneratePrompt([role, noQuestion]))]
  {
  }

  lemma QuestionAfterThreeOthers(a: LcMessage, b: LcMessage, c: LcMessage, question: string)
    requires !IsHuman(a) && !IsHuman(b) && !IsHuman(c)
    ensures FirstHumanContent([a, b, c] + [LcMessage("human", question, [])]) == Some(question)
    ensures LastHumanContent([a, b, c] + [LcMessage("human", question, [])]) == Some(question)
  {
    var asked := LcMessage("human", question, []);
    var ms := [a, b, c, asked];
    assert [a, b, c] + [asked] == ms;
    var bs, cs, qs := [b, c, asked], [c, asked], [asked];
    assert ms[1..] == bs && bs[1..] == cs && cs[1..] == qs;
    assert FirstHumanContent(ms) == FirstHumanContent(bs);
    assert FirstHumanContent(bs) == FirstHumanContent(cs);
    assert FirstHumanContent(cs) == FirstHumanContent(qs);
  }

  predicate IsHuman(m: LcMessage)
  {
    m.msgType == "human"
  }

  predicate IsTool(m: LcMessage)
  {
    m.msgType == "tool"
  }

  /** The content of the earliest human message, if there is one. */
  function FirstHumanContent(ms: seq<LcMessage>): Option<string>
    decreases |ms|
  {
    if ms == [] then None
    else if IsHuman(ms[0]) then Some(ms[0].content)
    else FirstHumanContent(ms[1..])
  }

  /** The content of the latest human message, if there is one. */
  function LastHumanContent(ms: seq<LcMessage>): Option<string>
    decreases |ms|
  {
    if ms == [] then None
    else if IsHuman(ms[|ms| - 1]) then Some(ms[|ms| - 1].content)
    else LastHumanContent(ms[..|ms| - 1])
  }

  /** `FirstHumanContent` is None exactly without a human message, and otherwise the content of the earliest one. */
  lemma {:induction false} FirstHumanContentSpec(ms: seq<LcMessage>)
    ensures FirstHumanContent(ms).None? <==> forall k :: 0 <= k < |ms| ==> !IsHuman(ms[k])
    ensures FirstHumanContent(ms).Some? ==>
              exists k :: 0 <= k < |ms| && IsHuman(ms[k]) && ms[k].content == FirstHumanContent(ms).value
                          && forall j :: 0 <= j < k ==> !IsHuman(ms[j])
    decreases |ms|
  {
    if ms != [] && !IsHuman(ms[0]) {
      FirstHumanContentSpec(ms[1..]);
      assert forall k :: 1 <= k < |ms| ==> ms[k] == ms[1..][k - 1];
      if FirstHumanContent(ms).Some? {
        var k :| 0 <= k < |ms[1..]| && IsHuman(ms[1..][k]) && ms[1..][k].content == FirstHumanContent(ms).value
                 && forall j :: 0 <= j < k ==> !IsHuman(ms[1..][j]);
        assert IsHuman(ms[k + 1]) && forall j :: 0 <= j < k + 1 ==> !IsHuman(ms[j]);
      }
    }
  }

  /** `LastHumanContent` is None exactly without a human message, and otherwise the content of the latest one. */
  lemma {:induction false} LastHumanContentSpec(ms: seq<LcMessage>)
    ensures LastHumanContent(ms).None? <==> forall k :: 0 <= k < |ms| ==> !IsHuman(ms[k])
    ensures LastHumanContent(ms).Some? ==>
              exists k :: 0 <= k < |ms| && IsHuman(ms[k]) && ms[k].content == LastHumanContent(ms).value
                          && forall j :: k < j < |ms| ==> !IsHuman(ms[j])
    decreases |ms|
  {
    if ms != [] && !IsHuman(ms[|ms| - 1]) {
      var front := ms[..|ms| - 1];
      LastHumanContentSpec(front);
      assert forall k :: 0 <= k < |front| ==> front[k] == ms[k];
      if LastHumanContent(ms).Some? {
        var k :| 0 <= k < |front| && IsHuman(front[k]) && front[k].content == LastHumanContent(ms).value
                 && forall j :: k < j < |front| ==> !IsHuman(front[j]);
        assert IsHuman(ms[k]) && forall j :: k < j < |ms| ==> !IsHuman(ms[j]);
      }
    }
  }

  /**
   * The query loop of `retrieve_node` as written: it walks the messages from the
   * newest to the oldest and overwrites `query` at every human message, with no
   * `break`, so the last write is the OLDEST question.
   */
  method SelectQueryAsWritten(messages: seq<LcMessage>) returns (query: Option<string>)
    ensures query == FirstHumanContent(messages)
  {
    query := None;
    var i := |messages|;
    while i > 0
      invariant 0 <= i <= |messages|
      invariant query == FirstHumanContent(messages[i..])
    {
      i := i - 1;
      assert messages[i..][1..] == messages[i + 1..];
      if IsHuman(messages[i]) {
        query := Some(messages[i].content);
      }
    }
    assert messages[0..] == messages;
  }

  /** The same walk stopping at the first human message it meets: the NEWEST question. */
  method SelectLatestQuery(messages: seq<LcMessage>) returns (query: Option<string>)
    ensures query == LastHumanContent(messages)
  {
    query := None;
    var i := |messages|;
    assert messages[..i] == messages;
    while i > 0
      invariant 0 <= i <= |messages|
      invariant query.None?
      invariant LastHumanContent(messages[..i]) == LastHumanContent(messages)
    {
      LastHumanStep(messages, i);
      if IsHuman(messages[i - 1]) {
        query := Some(messages[i - 1].content);
        assert query == LastHumanContent(messages);
        break;
      }
      i := i - 1;
    }
  }

  /** Looking back from position `i`: the message just before it, or further back. */
  lemma LastHumanStep(ms: seq<LcMessage>, i: nat)
    requires 0 < i <= |ms|
    ensures LastHumanContent(ms[..i])
            == if IsHuman(ms[i - 1]) then Some(ms[i - 1].content) else LastHumanContent(ms[..i - 1])
  {
    assert ms[..i][..i - 1] == ms[..i - 1];
  }

  /**
   * Once a conversation holds a question, every later question is ignored by the
   * loop as written: it keeps selecting the first one, while the latest question
   * is the one just asked.
   */
  lemma {:induction false} AsWrittenRepeatsFirstQuestion(earlier: seq<LcMessage>, question: string)
    requires exists k :: 0 <= k < |earlier| && IsHuman(earlier[k])
    ensures FirstHumanContent(earlier + [LcMessage("human", question, [])]) == FirstHumanContent(earlier)
    ensures LastHumanContent(earlier + [LcMessage("human", question, [])]) == Some(question)
    decreases |earlier|
  {
    var asked := LcMessage("human", question, []);
    var all := earlier + [asked];
    assert all[0] == earlier[0];
    if !IsHuman(earlier[0]) {
      var k :| 0 <= k < |earlier| && IsHuman(earlier[k]);
      assert IsHuman(earlier[1..][k - 1]);
      assert all[1..] == earlier[1..] + [asked];
      AsWrittenRepeatsFirstQuestion(earlier[1..], question);
    }
  }

  /** Two questions in one conversation: the loop as written picks "a", the newest is "b". */
  lemma QuerySelectionDiffers()
    ensures var ms := [LcMessage("human", "a", []), LcMessage("ai", "x", []), LcMessage("human", "b", [])];
            FirstHumanContent(ms) == Some("a") && LastHumanContent(ms) == Some("b")
  {
    var ms := [LcMessage("human", "a", []), LcMessage("ai", "x", []), LcMessage("human", "b", [])];
    assert ms[1..][1..] == [LcMessage("human", "b", [])];
  }

  /** `sep.join(parts)` */
  function JoinWith(sep: string, parts: seq<string>): (r: string)
    ensures parts == [] ==> r == ""
    ensures |parts| == 1 ==> r == parts[0]
    ensures parts != [] ==> |r| == TotalLength(parts) + |sep| * (|parts| - 1)
    decreases |parts|
  {
    if parts == [] then ""
    else if |parts| == 1 then parts[0]
    else parts[0] + sep + JoinWith(sep, parts[1..])
  }

  function TotalLength(parts: seq<string>): nat
    decreases |parts|
  {
    if parts == [] then 0 else |parts[0]| + TotalLength(parts[1..])
  }

  function Contents(ms: seq<LcMessage>): seq<string>
  {
    seq(|ms|, k requires 0 <= k < |ms| => ms[k].content)
  }

  const NO_QUESTION := "我没有收到你的问题。"
  const PASSAGE_SEPARATOR := "\n\n"
  const PASSAGES_PER_SEARCH: nat := 3

  /**
   * `retrieve_node`, with the query selected as intended (the newest question).
   * With no question the fixed reply is returned and nothing is invoked; otherwise
   * the question is rewritten into search keywords by the chat model
   * (`translate`), the store is searched for three passages, and the passages
   * come back joined in one tool message.
   */
  method RetrieveNode(messages: seq<LcMessage>, translate: string -> string, search: (string, nat) -> seq<string>)
    returns (reply: LcMessage)
    ensures (forall k :: 0 <= k < |messages| ==> !IsHuman(messages[k])) ==>
              reply == LcMessage("ai", NO_QUESTION, [])
    ensures LastHumanContent(messages).Some? ==>
              reply == LcMessage("tool",
                         JoinWith(PASSAGE_SEPARATOR, search(translate(LastHumanContent(messages).value), PASSAGES_PER_SEARCH)),
                         [])
  {
    LastHumanContentSpec(messages);
    var query := SelectLatestQuery(messages);
    if query.None? {
      return LcMessage("ai", NO_QUESTION, []);
    }
    var translateQuery := translate(query.value);
    var retrievedDocs := search(translateQuery, PASSAGES_PER_SEARCH);
    var serialized := JoinWith(PASSAGE_SEPARATOR, retrievedDocs);
    reply := LcMessage("tool", serialized, []);
  }

  /** The longest run of tool messages at the end of `ms`, in their original order. */
  function TrailingTools(ms: seq<LcMessage>): (r: seq<LcMessage>)
    ensures |r| <= |ms| && r == ms[|ms| - |r|..]
    ensures forall k :: 0 <= k < |r| ==> IsTool(r[k])
    ensures |r| < |ms| ==> !IsTool(ms[|ms| - |r| - 1])
    decreases |ms|
  {
    if ms != [] && IsTool(ms[|ms| - 1]) then
      var front := ms[..|ms| - 1];
      var t := TrailingTools(front);
      assert ms == front + [ms[|ms| - 1]];
      SliceOfSnoc(front, ms[|ms| - 1], |front| - |t|);
      t + [ms[|ms| - 1]]
    else []
  }

  /** A suffix of `front + [x]` that starts inside `front` is a suffix of `front` followed by `x`. */
  lemma SliceOfSnoc<T>(front: seq<T>, x: T, j: nat)
    requires j <= |front|
    ensures (front + [x])[j..] == front[j..] + [x]
  {
  }

  /** `s[::-1]` */
  function Reversed<T>(s: seq<T>): (r: seq<T>)
    ensures |r| == |s|
    ensures forall k :: 0 <= k < |s| ==> r[k] == s[|s| - 1 - k]
    decreases |s|
  {
    if s == [] then [] else Reversed(s[1..]) + [s[0]]
  }

  /** A run of tool messages from `i` to the end that no tool message precedes is the trailing run. */
  lemma {:induction false} TrailingToolsFrom(ms: seq<LcMessage>, i: nat)
    requires i <= |ms|
    requires forall k :: i <= k < |ms| ==> IsTool(ms[k])
    requires i == 0 || !IsTool(ms[i - 1])
    ensures TrailingTools(ms) == ms[i..]
    decreases |ms|
  {
    if i == |ms| {
      if ms != [] {
        assert !IsTool(ms[|ms| - 1]);
      }
    } else {
      var front, last := ms[..|ms| - 1], ms[|ms| - 1];
      assert IsTool(last);
      forall k | i <= k < |front|
        ensures IsTool(front[k])
      {
        assert front[k] == ms[k];
      }
      assert i == 0 || front[i - 1] == ms[i - 1];
      TrailingToolsFrom(front, i);
      assert TrailingTools(ms) == TrailingTools(front) + [last];
      assert ms == front + [last];
      SliceOfSnoc(front, last, i);
    }
  }

  /**
   * The tool-message loop of `generate_node`: walk the messages from the newest,
   * collect tool messages until the first other one, then reverse what was
   * collected.
   */
  method RecentToolMessages(messages: seq<LcMessage>) returns (toolMessages: seq<LcMessage>)
    ensures toolMessages == TrailingTools(messages)
  {
    var recent: seq<LcMessage> := [];
    var i := |messages|;
    while i > 0
      invariant 0 <= i <= |messages|
      invariant recent == Reversed(messages[i..])
      invariant forall k :: i <= k < |messages| ==> IsTool(messages[k])
    {
      if !IsTool(messages[i - 1]) {
        break;
      }
      ReversedStep(messages, i);
      recent := recent + [messages[i - 1]];
      i := i - 1;
    }
    TrailingToolsFrom(messages, i);
    ReversedTwice(messages[i..]);
    toolMessages := Reversed(recent);
  }

  lemma ReversedStep<T>(s: seq<T>, i: nat)
    requires 0 < i <= |s|
    ensures Reversed(s[i - 1..]) == Reversed(s[i..]) + [s[i - 1]]
  {
    assert s[i - 1..][1..] == s[i..];
  }

  lemma ReversedTwice<T>(s: seq<T>)
    ensures Reversed(Reversed(s)) == s
  {
  }

  /** The messages `generate_node` passes on: human and system ones, and AI ones that request no tool call. */
  predicate KeptInConversation(m: LcMessage)
  {
    m.msgType == "human" || m.msgType == "system" || (m.msgType == "ai" && m.toolCalls == [])
  }

  function ConversationMessages(ms: seq<LcMessage>): (r: seq<LcMessage>)
    ensures |r| <= |ms|
    ensures forall k :: 0 <= k < |r| ==> KeptInConversation(r[k])
    ensures forall k :: 0 <= k < |ms| && KeptInConversation(ms[k]) ==> ms[k] in r
    ensures multiset(r) <= multiset(ms)
    decreases |ms|
  {
    if ms == [] then []
    else
      var rest := ConversationMessages(ms[1..]);
      assert ms == [ms[0]] + ms[1..];
      assert forall k :: 1 <= k < |ms| ==> ms[k] == ms[1..][k - 1];
      (if KeptInConversation(ms[0]) then [ms[0]] else []) + rest
  }

  /** The filter keeps the relative order: filtering a concatenation filters each part. */
  lemma {:induction false} ConversationOfConcat(a: seq<LcMessage>, b: seq<LcMessage>)
    ensures ConversationMessages(a + b) == ConversationMessages(a) + ConversationMessages(b)
    decreases |a|
  {
    if a != [] {
      assert (a + b)[0] == a[0];
      assert (a + b)[1..] == a[1..] + b;
      ConversationOfConcat(a[1..], b);
    } else {
      assert a + b == b;
    }
  }

  /** Filtering twice keeps what filtering once kept. */
  lemma {:induction false} ConversationIdempotent(ms: seq<LcMessage>)
    ensures ConversationMessages(ConversationMessages(ms)) == ConversationMessages(ms)
    decreases |ms|
  {
    if ms != [] {
      var head := if KeptInConversation(ms[0]) then [ms[0]] else [];
      ConversationOfConcat(head, ConversationMessages(ms[1..]));
      ConversationIdempotent(ms[1..]);
      if head != [] {
        assert head[1..] == [];
      }
    }
  }

  const GENERATE_INSTRUCTION :=
    "这是retrive返回的信息，参考下边从文档中检索的内容回答问题，如果你根据这些信息也无法回答的话就回答不知道。使用简洁清楚的语句回答。\n\n"

  /**
   * The prompt of `generate_node`: one system message carrying the instruction and
   * the trailing tool messages' contents, then the conversation. No tool message
   * and no tool-calling AI message reaches the model other than through the first
   * message, and every human or system message does.
   */
  function GeneratePrompt(ms: seq<LcMessage>): (p: seq<LcMessage>)
    ensures |p| == 1 + |ConversationMessages(ms)|
    ensures p[0].msgType == "system"
    ensures |GENERATE_INSTRUCTION| <= |p[0].content| && p[0].content[..|GENERATE_INSTRUCTION|] == GENERATE_INSTRUCTION
    ensures forall k :: 1 <= k < |p| ==> KeptInConversation(p[k])
    ensures forall m :: m in ms && KeptInConversation(m) ==> m in p[1..]
  {
    var docsContent := JoinWith(PASSAGE_SEPARATOR, Contents(TrailingTools(ms)));
    var conversation := ConversationMessages(ms);
    var p := [LcMessage("system", GENERATE_INSTRUCTION + docsContent, [])] + conversation;
    assert p[1..] == conversation;
    p
  }

  /** `generate_node`: the chat model (`invoke`) answers the prompt built from the messages. */
  method GenerateNode(messages: seq<LcMessage>, invoke: seq<LcMessage> -> LcMessage) returns (reply: LcMessage)
    ensures reply == invoke(GeneratePrompt(messages))
  {
    var toolMessages := RecentToolMessages(messages);
    var docsContent := JoinWith(PASSAGE_SEPARATOR, Contents(toolMessages));
    var systemMessageContent := GENERATE_INSTRUCTION + docsContent;
    var conversationMessages := ConversationMessages(messages);
    var prompt := [LcMessage("system", systemMessageContent, [])] + conversationMessages;
    reply := invoke(prompt);
  }

  /**
   * One turn of the graph: after the user's question the retrieve node appends
   * its tool message, and the generate node's system prompt then carries exactly
   * that message's passages, whatever tool messages earlier turns left behind.
   */
  lemma RetrievedContextReachesPrompt(history: seq<LcMessage>, question: string, passages: string)
    ensures var ms := history + [LcMessage("human", question, []), LcMessage("tool", passages, [])];
            GeneratePrompt(ms)[0].content == GENERATE_INSTRUCTION + passages
  {
    var asked := LcMessage("human", question, []);
    var tool := LcMessage("tool", passages, []);
    var ms := history + [asked, tool];
    assert ms[..|ms| - 1] == history + [asked];
    assert TrailingTools(history + [asked]) == [];
    assert TrailingTools(ms) == [tool];
    assert Contents([tool]) == [passages];
  }
}
