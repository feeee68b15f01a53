/**
 The bounded tool-calling loop (app/agent/loop.py) as a step machine.

 Provider, tool runtime, clock and context sizer are arbitrary functions of the call
 number and the request, so every statement about a run holds whatever they answer.
 The machine also records what was sent and when, which the loop's own lists do not show.
 */
module AgentLoop {
  import opened Prelude
  import opened ProviderModels
  import Json

  datatype RunStatus = Completed | Stopped | Failed

  datatype StopReason =
    | FinalResponse | MaxIterations | MaxToolCalls | DuplicateToolCall | ToolNotAllowed
    | ProviderError | InvalidToolConfiguration | ContextBudgetExceeded | Timeout

  datatype RunRequest = RunRequest(
    messages: seq<ChatMessage>,
    allowedTools: seq<string>,
    maxIterations: nat,
    maxToolCalls: nat,
    timeout: real,
    maxContextTokens: int,
    temperature: real,
    maxTokens: Option<int>,
    topP: Option<real>)

  datatype ToolDefinition = ToolDefinition(name: string, version: string, description: string, inputSchema: string)

  datatype ToolErrorInfo = ToolErrorInfo(code: string, message: string, retryable: bool)

  /** `data` is the JSON text of the payload. */
  datatype ToolResult = ToolResult(
    success: bool, toolName: string, toolVersion: string, attempts: nat,
    data: Option<string>, error: Option<ToolErrorInfo>, cached: bool, fallbackUsed: bool)

  datatype ToolExecutionRecord = ToolExecutionRecord(
    toolCallId: string, toolName: string, arguments: Arguments, result: ToolResult)

  datatype ToolInvocation = ToolInvocation(
    name: string, arguments: Arguments, iteration: nat, toolCallId: string, timeoutCap: real)

  datatype RunResult = RunResult(
    status: RunStatus, stopReason: StopReason, messages: seq<ChatMessage>, responses: seq<ChatResponse>,
    executions: seq<ToolExecutionRecord>, usage: TokenUsage, iterations: int,
    finalResponse: Option<ChatResponse>, errorCode: Option<string>)

  datatype Signal =
    | ToolCallStarted(toolName: string, toolVersion: string, ordinal: nat, iteration: nat)
    | ToolCallCompleted(toolName: string, toolVersion: string, ordinal: nat, success: bool,
                        failureCode: Option<string>, attempts: nat, cached: bool, fallbackUsed: bool)
    | AgentRunTerminated(status: RunStatus, stopReason: StopReason, iterations: int, errorCode: Option<string>)

  datatype ProviderReply = Responded(response: ChatResponse) | Raised(code: string)

  datatype Env = Env(
    registry: map<string, ToolDefinition>,
    textChat: bool,
    toolCalling: bool,
    provider: (nat, ChatRequest) -> ProviderReply,
    runtime: (nat, ToolInvocation) -> ToolResult,
    clock: nat -> real,
    sizer: seq<ChatMessage> -> int)

  /** What `AgentRunRequest.__post_init__` demands. */
  predicate ValidRequest(req: RunRequest) {
    && req.messages != []
    && Distinct(req.allowedTools)
    && (forall i :: 0 <= i < |req.allowedTools| ==> !Blank(req.allowedTools[i]))
    && 1 <= req.maxIterations <= 20
    && 1 <= req.maxToolCalls <= 50
    && 0.0 < req.timeout
    && 0 < req.maxContextTokens
    && 0.0 <= req.temperature <= 2.0
    && (req.maxTokens.Some? ==> 0 < req.maxTokens.value)
    && (req.topP.Some? ==> 0.0 <= req.topP.value <= 1.0)
  }

  /** `ToolRegistry.register` files every definition under its own name. */
  predicate ValidRegistry(registry: map<string, ToolDefinition>) {
    forall name :: name in registry ==> registry[name].name == name
  }

  /** The provider protocol: a normalized response or a typed error. */
  ghost predicate ProviderContract(env: Env) {
    forall n: nat, q: ChatRequest :: env.provider(n, q).Responded? ==> ValidResponse(env.provider(n, q).response)
  }

  // ----- pure helpers -----

  predicate ToolsRegistered(env: Env, req: RunRequest) {
    forall i :: 0 <= i < |req.allowedTools| ==> req.allowedTools[i] in env.registry
  }

  function ToolSpecs(env: Env, req: RunRequest): seq<ToolSpec>
    requires ToolsRegistered(env, req)
  {
    seq(|req.allowedTools|, i requires 0 <= i < |req.allowedTools| =>
      var d := env.registry[req.allowedTools[i]];
      ToolSpec(d.name, d.description, d.inputSchema))
  }

  function RequestFor(env: Env, req: RunRequest, messages: seq<ChatMessage>, iteration: nat, remaining: real): ChatRequest
    requires ToolsRegistered(env, req)
  {
    var specs := ToolSpecs(env, req);
    ChatRequest(messages, specs, if specs != [] then Auto else NoTools, req.temperature, req.maxTokens,
                remaining, req.topP, iteration)
  }

  /** `require_provider_capabilities`: raised before the provider is called. */
  predicate Supported(env: Env, request: ChatRequest) {
    env.textChat && (request.tools != [] && !request.toolChoice.NoTools? ==> env.toolCalling)
  }

  function ToolResultContent(r: ToolResult): string {
    "{\"data\":" + (match r.data case None => "null" case Some(text) => text)
    + (match r.error
       case None => ""
       case Some(e) => ",\"error\":{\"code\":" + Json.Quote(e.code) + ",\"message\":" + Json.Quote(e.message)
                       + ",\"retryable\":" + Json.Bool(e.retryable) + "}")
    + ",\"success\":" + Json.Bool(r.success) + ",\"tool_name\":" + Json.Quote(r.toolName)
    + ",\"tool_version\":" + Json.Quote(r.toolVersion) + "}"
  }

  function ToolMessage(e: ToolExecutionRecord): ChatMessage {
    ChatMessage(Tool, Some(ToolResultContent(e.result)), [], Some(e.toolCallId), Some(e.toolName), None)
  }

  function InvocationFor(call: ToolCall, iteration: nat, cap: real): ToolInvocation {
    ToolInvocation(call.name, call.arguments, iteration, call.id, cap)
  }

  function RecordFor(call: ToolCall, result: ToolResult): ToolExecutionRecord {
    ToolExecutionRecord(call.id, call.name, call.arguments, result)
  }

  const SAFE_TOOL_FAILURE_CODES: set<string> := {
    "circuit_open", "fallback_failed", "invalid_tool_input", "invalid_tool_output",
    "retry_budget_exhausted", "tool_execution_failed", "tool_not_found" }

  function CompletedSignal(r: ToolResult, ordinal: nat): Signal {
    var failure :=
      if r.success then None
      else if r.error.Some? && r.error.value.code in SAFE_TOOL_FAILURE_CODES then Some(r.error.value.code)
      else Some("tool_failed");
    ToolCallCompleted(r.toolName, r.toolVersion, ordinal, r.success, failure, r.attempts, r.cached, r.fallbackUsed)
  }

  /** `_safe_agent_error_code`; None in the outer option is the source's KeyError. */
  function SafeAgentErrorCode(status: RunStatus, reason: StopReason): Option<Option<string>> {
    if !status.Failed? then Some(None)
    else match reason
      case ProviderError => Some(Some("provider_failed"))
      case ToolNotAllowed => Some(Some("tool_not_allowed"))
      case InvalidToolConfiguration => Some(Some("tool_not_found"))
      case _ => None
  }

  type Signature = (string, string)

  function CallSignature(c: ToolCall): Signature {
    (c.name, c.arguments.canonicalJson)
  }

  function RecordSignature(e: ToolExecutionRecord): Signature {
    (e.toolName, e.arguments.canonicalJson)
  }

  datatype BatchVerdict = NotAllowed | Duplicate | Admitted(seen: set<Signature>)

  /** The validation pass over one response: the first offending call decides. */
  function ValidateBatch(calls: seq<ToolCall>, allowed: seq<string>, seen: set<Signature>): (v: BatchVerdict)
    ensures v.Admitted? ==> forall c :: c in calls ==> c.name in allowed
  {
    if calls == [] then Admitted(seen)
    else if calls[0].name !in allowed then NotAllowed
    else if CallSignature(calls[0]) in seen then Duplicate
    else ValidateBatch(calls[1..], allowed, seen + {CallSignature(calls[0])})
  }

  // ----- the machine -----

  datatype Phase =
    | Begin(iteration: nat)
    | Received(iteration: nat, response: ChatResponse)
    | Executing(iteration: nat, response: ChatResponse, next: nat)
    | Done(result: RunResult)

  /** Something sent out, with the number of the clock reading its time allowance came from. */
  datatype Issued<+T> = Issued(what: T, reading: int)

  datatype Machine = Machine(
    phase: Phase,
    messages: seq<ChatMessage>,
    responses: seq<ChatResponse>,
    executions: seq<ToolExecutionRecord>,
    ordinal: nat,
    seen: set<Signature>,
    usage: TokenUsage,
    signals: seq<Signal>,
    readings: seq<real>,
    requests: seq<Issued<ChatRequest>>,
    invocations: seq<Issued<ToolInvocation>>)

  function Deadline(env: Env, req: RunRequest): real {
    env.clock(0) + req.timeout
  }

  function Finish(m: Machine, status: RunStatus, reason: StopReason, iterations: int,
                  finalResponse: Option<ChatResponse>, errorCode: Option<string>): Machine {
    m.(phase := Done(RunResult(status, reason, m.messages, m.responses, m.executions, m.usage, iterations,
                               finalResponse, errorCode)))
  }

  function Halt(m: Machine, reason: StopReason, iterations: int): Machine {
    Finish(m, Stopped, reason, iterations, None, None)
  }

  function Read(env: Env, m: Machine): Machine {
    m.(readings := m.readings + [env.clock(|m.readings|)])
  }

  /** One pass from the top of an iteration to the recorded response. */
  function StepBegin(env: Env, req: RunRequest, m: Machine, i: nat): Machine
    requires ToolsRegistered(env, req)
  {
    if i > req.maxIterations then Halt(m, MaxIterations, req.maxIterations)
    else if env.sizer(m.messages) > req.maxContextTokens then Halt(m, ContextBudgetExceeded, i - 1)
    else
      var m1 := Read(env, m);
      var remaining := Deadline(env, req) - env.clock(|m.readings|);
      if remaining <= 0.0 then Halt(m1, Timeout, i - 1)
      else
        var request := RequestFor(env, req, m.messages, i, remaining);
        if !Supported(env, request) then
          Finish(m1, Failed, ProviderError, i - 1, None, Some("unsupported_capability"))
        else
          var m2 := m1.(requests := m.requests + [Issued(request, |m.readings|)]);
          match env.provider(|m.requests|, request)
          case Raised(code) => Finish(m2, Failed, ProviderError, i - 1, None, Some(code))
          case Responded(r) =>
            m2.(phase := Received(i, r),
                responses := m.responses + [r],
                usage := AddUsage(m.usage, r.usage),
                messages := m.messages + [AssistantMessage(r)])
  }

  /** The checks between a response and its first tool. */
  function StepReceived(env: Env, req: RunRequest, m: Machine, i: nat, r: ChatResponse): Machine {
    var m1 := Read(env, m);
    if env.clock(|m.readings|) >= Deadline(env, req) then Halt(m1, Timeout, i)
    else if r.toolCalls == [] then Finish(m1, Completed, FinalResponse, i, Some(r), None)
    else if i >= req.maxIterations then Halt(m1, MaxIterations, i)
    else if |m.executions| + |r.toolCalls| > req.maxToolCalls then Halt(m1, MaxToolCalls, i)
    else
      match ValidateBatch(r.toolCalls, req.allowedTools, m.seen)
      case NotAllowed => Finish(m1, Failed, ToolNotAllowed, i, None, Some("tool_not_allowed"))
      case Duplicate => Halt(m1, DuplicateToolCall, i)
      case Admitted(seen) => m1.(phase := Executing(i, r, 0), seen := seen)
  }

  /** The effects of executing one admitted call with the given allowance. */
  function Execute(env: Env, m: Machine, i: nat, call: ToolCall, cap: real): Machine
    requires call.name in env.registry
  {
    var invocation := InvocationFor(call, i, cap);
    var result := env.runtime(|m.invocations|, invocation);
    var definition := env.registry[call.name];
    var record := RecordFor(call, result);
    m.(ordinal := m.ordinal + 1,
       signals := m.signals + [ToolCallStarted(definition.name, definition.version, m.ordinal + 1, i),
                               CompletedSignal(result, m.ordinal + 1)],
       invocations := m.invocations + [Issued(invocation, |m.readings| - 1)],
       executions := m.executions + [record],
       messages := m.messages + [ToolMessage(record)])
  }

  function StepExecuting(env: Env, req: RunRequest, m: Machine, i: nat, r: ChatResponse, k: nat): Machine
    requires forall c :: c in r.toolCalls ==> c.name in env.registry
  {
    if k >= |r.toolCalls| then m.(phase := Begin(i + 1))
    else
      var m1 := Read(env, m);
      var remaining := Deadline(env, req) - env.clock(|m.readings|);
      if remaining <= 0.0 then Halt(m1, Timeout, i)
      else
        var m2 := Execute(env, m1, i, r.toolCalls[k], remaining);
        var m3 := Read(env, m2);
        if env.clock(|m2.readings|) >= Deadline(env, req) then Halt(m3, Timeout, i)
        else m3.(phase := Executing(i, r, k + 1))
  }

  /** Tools are only ever executed out of an admitted batch. */
  predicate CallsAllowed(req: RunRequest, p: Phase) {
    p.Executing? ==> forall c :: c in p.response.toolCalls ==> c.name in req.allowedTools
  }

  function Step(env: Env, req: RunRequest, m: Machine): (m': Machine)
    requires ToolsRegistered(env, req) && CallsAllowed(req, m.phase)
    ensures CallsAllowed(req, m'.phase)
  {
    match m.phase
    case Begin(i) => StepBegin(env, req, m, i)
    case Received(i, r) => StepReceived(env, req, m, i, r)
    case Executing(i, r, k) => StepExecuting(env, req, m, i, r, k)
    case Done(_) => m
  }

  const EMPTY_MACHINE := Machine(Begin(1), [], [], [], 0, {}, ZERO_USAGE, [], [], [], [])

  function Start(env: Env, req: RunRequest): Machine {
    var m := EMPTY_MACHINE.(messages := req.messages);
    if ToolsRegistered(env, req) then Read(env, m)
    else Finish(m, Failed, InvalidToolConfiguration, 0, None, Some("tool_not_found"))
  }

  function IterationsLeft(req: RunRequest, p: Phase): nat {
    match p
    case Done(_) => 0
    case _ => if p.iteration <= req.maxIterations then req.maxIterations - p.iteration + 1 else 0
  }

  function Stage(req: RunRequest, p: Phase): nat {
    match p
    case Done(_) => 0
    case Begin(i) => if i <= req.maxIterations then 4 else 1
    case Received(_, _) => 3
    case Executing(_, _, _) => 2
  }

  function CallsLeft(p: Phase): nat {
    if p.Executing? && p.next < |p.response.toolCalls| then |p.response.toolCalls| - p.next else 0
  }

  /** Runs the machine to its end. */
  function RunFrom(env: Env, req: RunRequest, m: Machine): (f: Machine)
    requires m.phase.Done? || (ToolsRegistered(env, req) && CallsAllowed(req, m.phase))
    ensures f.phase.Done?
    decreases IterationsLeft(req, m.phase), Stage(req, m.phase), CallsLeft(m.phase)
  {
    if m.phase.Done? then m else RunFrom(env, req, Step(env, req, m))
  }

  /** The whole of `AgentLoop.run`: the final machine, before the terminal signal. */
  function Final(env: Env, req: RunRequest): (f: Machine)
    ensures f.phase.Done?
  {
    RunFrom(env, req, Start(env, req))
  }
}
