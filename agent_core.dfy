/**
 * The agent value of the multi-agent team: its identity, the chat messages it
 * sends to its language model, and the way a context dictionary is folded
 * into those messages. The language model itself is an oracle parameter.
 */
module AgentCore {
  import opened Wrappers
  import opened Strings

  /**
   * An agent. `temperatureTenths` is the sampling temperature times ten; it
   * and the system prompt only matter to the language model.
   */
  datatype Agent = Agent(name: string, role: string, systemPrompt: string, emoji: string, temperatureTenths: nat)

  /** The three message kinds of the chat model interface. */
  datatype ChatMessage =
    | SystemMessage(content: string)
    | HumanMessage(content: string)
    | AIMessage(content: string)

  /** What one call of an agent's language model gives back: its text, or the exception it raised. */
  datatype LlmReply = Reply(text: string) | Raised(error: string)

  /** The language model behind each agent, as a function of the agent and the full message list. */
  type Llm = (Agent, seq<ChatMessage>) -> LlmReply

  /** A context dictionary with string values; a key bound to `None` is simply absent. */
  type Context = map<string, string>

  /** `context.get(key)` is truthy. */
  predicate HasText(context: Context, key: string) {
    key in context && context[key] != ""
  }

  const DocumentHeader: string := "📄 **文档内容**:\n"
  const PreviousHeader: string := "📋 **之前的处理结果**:\n"
  const FeedbackHeader: string := "💬 **用户反馈**:\n"

  /** 1 when `context.get(key)` is truthy, else 0. */
  function Present(context: Context, key: string): nat {
    if HasText(context, key) then 1 else 0
  }

  /**
   * The parts `_format_context` collects: one per truthy key, the document
   * first, then the previous results, then the user feedback.
   */
  function ContextParts(context: Context): (parts: seq<string>)
    ensures |parts| == Present(context, "document") + Present(context, "previous_results") + Present(context, "user_feedback")
    ensures parts == [] <==> !HasText(context, "document") && !HasText(context, "previous_results") && !HasText(context, "user_feedback")
    ensures HasText(context, "document") ==> parts[0] == DocumentHeader + Take(context["document"], 1000) + "..."
    ensures HasText(context, "previous_results") ==>
              parts[Present(context, "document")] == PreviousHeader + context["previous_results"]
    ensures HasText(context, "user_feedback") ==>
              parts[Present(context, "document") + Present(context, "previous_results")] == FeedbackHeader + context["user_feedback"]
  {
    (if HasText(context, "document") then [DocumentHeader + Take(context["document"], 1000) + "..."] else [])
    + (if HasText(context, "previous_results") then [PreviousHeader + context["previous_results"]] else [])
    + (if HasText(context, "user_feedback") then [FeedbackHeader + context["user_feedback"]] else [])
  }

  /** `Agent._format_context`: the truthy parts joined by blank lines, or `None`. */
  function FormatContext(context: Context): (r: Option<string>)
    ensures r.None? <==> ContextParts(context) == []
    ensures r.Some? ==> r.value == Join("\n\n", ContextParts(context))
  {
    var parts := ContextParts(context);
    if parts == [] then None else Some(Join("\n\n", parts))
  }

  /**
   * Only the first 1000 characters of the document reach the agent: cutting
   * the document down to them beforehand gives the same context message.
   */
  lemma FormatContextReadsDocumentPrefix(context: Context)
    requires "document" in context
    ensures FormatContext(context) == FormatContext(context["document" := Take(context["document"], 1000)])
  {
    var doc := context["document"];
    var cut := context["document" := Take(doc, 1000)];
    assert HasText(context, "document") <==> HasText(cut, "document");
    assert Take(Take(doc, 1000), 1000) == Take(doc, 1000);
    assert ContextParts(context) == ContextParts(cut);
  }

  /** Every collected part appears in the context text. */
  lemma FormatContextCarriesParts(context: Context, k: nat)
    requires k < |ContextParts(context)|
    ensures FormatContext(context).Some? && Contains(FormatContext(context).value, ContextParts(context)[k])
  {
    JoinCarries("\n\n", ContextParts(context), k);
  }

  /**
   * `Agent.invoke`'s message list: the system prompt, then the context message
   * when there is one, then the caller's messages unchanged.
   */
  function FullMessages(agent: Agent, messages: seq<ChatMessage>, context: Context): (r: seq<ChatMessage>)
    ensures |r| >= 1 && r[0] == SystemMessage(agent.systemPrompt)
    ensures FormatContext(context).None? ==> r == [SystemMessage(agent.systemPrompt)] + messages
    ensures FormatContext(context).Some? ==> |r| == |messages| + 2 && r[1] == HumanMessage(FormatContext(context).value)
    ensures r[|r| - |messages|..] == messages
  {
    match FormatContext(context)
    case None => [SystemMessage(agent.systemPrompt)] + messages
    case Some(text) => [SystemMessage(agent.systemPrompt), HumanMessage(text)] + messages
  }

  /** `Agent.invoke`: the agent's model applied to the full message list. */
  function Invoke(agent: Agent, messages: seq<ChatMessage>, context: Context, llm: Llm): LlmReply {
    llm(agent, FullMessages(agent, messages, context))
  }

  /** `agent.invoke([HumanMessage(prompt)])`: one user message and no context. */
  function Ask(agent: Agent, prompt: string, llm: Llm): LlmReply {
    Invoke(agent, [HumanMessage(prompt)], map[], llm)
  }

  /** Text standing in for a default agent's system prompt, which only its model reads. */
  function PromptOf(name: string): string {
    "system prompt of " + name
  }

  const DocumentAnalyst: Agent := Agent("文档分析师", "信息提取与分析专家", PromptOf("文档分析师"), "fas fa-file-alt", 2)
  const ContentCreator: Agent := Agent("内容创作者", "专业内容撰写专家", PromptOf("内容创作者"), "fas fa-pen-fancy", 7)
  const DataExpert: Agent := Agent("数据专家", "数据分析与洞察专家", PromptOf("数据专家"), "fas fa-chart-bar", 3)
  const Editor: Agent := Agent("校对编辑", "内容质量把控专家", PromptOf("校对编辑"), "fas fa-check-double", 2)
  const Compliance: Agent := Agent("合规官", "合规与风险控制专家", PromptOf("合规官"), "fas fa-balance-scale", 1)
  const Translator: Agent := Agent("翻译专家", "专业翻译与本地化专家", PromptOf("翻译专家"), "fas fa-language", 4)
  const DataVisualization: Agent := Agent("数据可视化专家", "数据图表与可视化专家", PromptOf("数据可视化专家"), "fas fa-chart-line", 4)
  const KnowledgeManager: Agent := Agent("知识管理专家", "文档知识库与检索专家", PromptOf("知识管理专家"), "fas fa-book-open", 3)
  const Coordinator: Agent := Agent("协调者", "任务分配与协调专家", PromptOf("协调者"), "fas fa-bullseye", 1)
  const PromptEngineer: Agent := Agent("提示词智能体", "Prompt Engineer", PromptOf("提示词智能体"), "fas fa-magic", 7)

  /** The default team in registration order. */
  const DefaultAgents: seq<Agent> := [DocumentAnalyst, ContentCreator, DataExpert, Editor, Translator,
                                      Compliance, DataVisualization, KnowledgeManager, PromptEngineer, Coordinator]
}
