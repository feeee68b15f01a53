/** Provider-neutral messages, requests and responses (app/providers/models.py). */
module ProviderModels {
  import opened Prelude

  datatype MessageRole = System | User | Assistant | Tool

  /** Tool arguments, represented by their canonical JSON text. */
  datatype Arguments = Arguments(canonicalJson: string)

  datatype ToolCall = ToolCall(id: string, name: string, arguments: Arguments)

  datatype ChatMessage = ChatMessage(
    role: MessageRole,
    content: Option<string>,
    toolCalls: seq<ToolCall>,
    toolCallId: Option<string>,
    name: Option<string>,
    reasoning: Option<string>)

  datatype TokenUsage = TokenUsage(inputTokens: nat, outputTokens: nat, cachedInputTokens: nat)

  datatype ChatResponse = ChatResponse(
    content: Option<string>,
    model: string,
    provider: string,
    usage: TokenUsage,
    toolCalls: seq<ToolCall>,
    reasoning: Option<string>)

  datatype ToolSpec = ToolSpec(name: string, description: string, inputSchema: string)

  datatype ToolChoiceMode = Auto | NoTools | Required

  datatype ChatRequest = ChatRequest(
    messages: seq<ChatMessage>,
    tools: seq<ToolSpec>,
    toolChoice: ToolChoiceMode,
    temperature: real,
    maxTokens: Option<int>,
    timeout: real,
    topP: Option<real>,
    iteration: nat)

  const ZERO_USAGE := TokenUsage(0, 0, 0)

  predicate NotBlankIfPresent(s: Option<string>) {
    s.Some? ==> !Blank(s.value)
  }

  predicate ValidCalls(calls: seq<ToolCall>) {
    && (forall i :: 0 <= i < |calls| ==> !Blank(calls[i].id) && !Blank(calls[i].name))
    && (forall i, j :: 0 <= i < j < |calls| ==> calls[i].id != calls[j].id)
  }

  /** What `ChatMessage.__post_init__` demands. */
  predicate ValidMessage(m: ChatMessage) {
    && NotBlankIfPresent(m.content)
    && NotBlankIfPresent(m.reasoning)
    && ValidCalls(m.toolCalls)
    && match m.role
       case System | User =>
         m.content.Some? && m.toolCalls == [] && m.toolCallId.None? && m.name.None? && m.reasoning.None?
       case Assistant =>
         (m.content.Some? || m.toolCalls != []) && m.toolCallId.None? && m.name.None?
       case Tool =>
         && m.content.Some? && m.toolCallId.Some? && !Blank(m.toolCallId.value)
         && m.toolCalls == [] && m.reasoning.None? && NotBlankIfPresent(m.name)
  }

  /** What `ChatResponse.__post_init__` demands. */
  predicate ValidResponse(r: ChatResponse) {
    && NotBlankIfPresent(r.content)
    && NotBlankIfPresent(r.reasoning)
    && ValidCalls(r.toolCalls)
    && (r.content.Some? || r.toolCalls != [])
    && !Blank(r.model) && !Blank(r.provider)
  }

  /** What `ChatRequest.__post_init__` demands. */
  predicate ValidChatRequest(q: ChatRequest) {
    && q.messages != []
    && (forall i, j :: 0 <= i < j < |q.tools| ==> q.tools[i].name != q.tools[j].name)
    && (q.toolChoice.Required? ==> q.tools != [])
    && 0.0 <= q.temperature <= 2.0
    && (q.topP.Some? ==> 0.0 <= q.topP.value <= 1.0)
    && (q.maxTokens.Some? ==> 0 < q.maxTokens.value)
    && 0.0 < q.timeout
  }

  function AssistantMessage(r: ChatResponse): ChatMessage {
    ChatMessage(Assistant, r.content, r.toolCalls, None, None, r.reasoning)
  }

  function AddUsage(a: TokenUsage, b: TokenUsage): TokenUsage {
    TokenUsage(a.inputTokens + b.inputTokens, a.outputTokens + b.outputTokens,
               a.cachedInputTokens + b.cachedInputTokens)
  }
}
