/**
 What a run shows the outside, field by field: the requests it sends, the capabilities it
 asks of its provider, the messages it keeps, the tools it invokes and the signals it emits.
 */
module AgentLoopMeaning {
  import opened Prelude
  import opened ProviderModels
  import opened AgentLoop
  import opened AgentLoopTranscript
  import opened AgentLoopRuns
  import opened JsonReader
  import opened MessageReading

  // ----- requests -----

  /** The spec shows the registered tool of that name. */
  predicate ShowsTool(env: Env, s: ToolSpec, name: string)
    requires name in env.registry
  {
    && s.name == env.registry[name].name
    && s.description == env.registry[name].description
    && s.inputSchema == env.registry[name].inputSchema
  }

  /** One spec per allowed tool, in the order of the request. */
  predicate ShowsTools(env: Env, req: RunRequest, specs: seq<ToolSpec>)
    requires ToolsRegistered(env, req)
  {
    && |specs| == |req.allowedTools|
    && forall i :: 0 <= i < |specs| ==> ShowsTool(env, specs[i], req.allowedTools[i])
  }

  /** Tools are offered exactly when some are allowed. */
  predicate OffersTools(req: RunRequest, choice: ToolChoiceMode) {
    && (choice.Auto? <==> req.allowedTools != [])
    && (choice.NoTools? <==> req.allowedTools == [])
  }

  /** The sampling parameters are those of the run. */
  predicate SamplesAsAsked(req: RunRequest, q: ChatRequest) {
    q.temperature == req.temperature && q.maxTokens == req.maxTokens && q.topP == req.topP
  }

  /** The time left of the run at the given clock reading. */
  predicate TimeLeft(env: Env, req: RunRequest, reading: int, allowance: real) {
    0 <= reading && allowance == env.clock(0) + req.timeout - env.clock(reading)
  }

  /** The provider can do what a run with these tools needs. */
  predicate CanServe(env: Env, req: RunRequest) {
    env.textChat && (req.allowedTools == [] || env.toolCalling)
  }

  predicate Carries(env: Env, req: RunRequest, bs: seq<Block>, issued: Issued<ChatRequest>, n: nat)
    requires ToolsRegistered(env, req) && n <= |bs|
  {
    var q := issued.what;
    && q.messages == req.messages + Flatten(bs[..n])
    && ShowsTools(env, req, q.tools)
    && OffersTools(req, q.toolChoice)
    && SamplesAsAsked(req, q)
    && TimeLeft(env, req, issued.reading, q.timeout)
    && q.iteration == n + 1
  }

  lemma {:induction false} RequestCarries(env: Env, req: RunRequest, bs: seq<Block>, issued: Issued<ChatRequest>, n: nat,
                                          readings: seq<real>)
    requires ToolsRegistered(env, req) && n <= |bs|
    requires 0 <= issued.reading < |readings| && Ticks(env, readings)
    requires issued.what == RequestFor(env, req, req.messages + Flatten(bs[..n]), n + 1,
                                       Deadline(env, req) - readings[issued.reading])
    ensures Carries(env, req, bs, issued, n)
  {
    forall i | 0 <= i < |issued.what.tools| ensures ShowsTool(env, issued.what.tools[i], req.allowedTools[i]) {}
  }

  /** Every request so far was one the provider can serve, within the context ceiling. */
  predicate Servable(env: Env, req: RunRequest, m: Machine) {
    forall n :: 0 <= n < |m.requests| ==>
      CanServe(env, req) && env.sizer(m.requests[n].what.messages) <= req.maxContextTokens
  }

  lemma {:induction false} StepServable(env: Env, req: RunRequest, m: Machine)
    requires ToolsRegistered(env, req) && CallsAllowed(req, m.phase) && Servable(env, req, m) && !m.phase.Done?
    ensures Servable(env, req, Step(env, req, m))
  {
    StepAppends(env, req, m);
    if m.phase.Begin? {
      BeginServable(env, req, m);
    }
  }

  lemma {:induction false} BeginServable(env: Env, req: RunRequest, m: Machine)
    requires ToolsRegistered(env, req) && m.phase.Begin? && Servable(env, req, m)
    ensures Servable(env, req, StepBegin(env, req, m, m.phase.iteration))
  {
    var m' := StepBegin(env, req, m, m.phase.iteration);
    NewRequestServable(env, req, m);
    forall n | 0 <= n < |m'.requests|
      ensures CanServe(env, req) && env.sizer(m'.requests[n].what.messages) <= req.maxContextTokens
    {
      if n < |m.requests| { assert m'.requests[n] == m.requests[n]; }
    }
  }

  lemma {:induction false} NewRequestServable(env: Env, req: RunRequest, m: Machine)
    requires ToolsRegistered(env, req) && m.phase.Begin?
    ensures var m' := StepBegin(env, req, m, m.phase.iteration);
      || m'.requests == m.requests
      || (&& CanServe(env, req) && |m'.requests| == |m.requests| + 1 && m.requests <= m'.requests
          && m'.requests[|m.requests|].what.messages == m.messages && env.sizer(m.messages) <= req.maxContextTokens)
  {
  }

  lemma {:induction false} FinalServable(env: Env, req: RunRequest)
    requires ToolsRegistered(env, req)
    ensures Servable(env, req, Final(env, req))
  {
    ghost var inv := (x: Machine) => CallsAllowed(req, x.phase) && Servable(env, req, x);
    forall x | inv(x) && !x.phase.Done? ensures inv(Step(env, req, x)) {
      StepServable(env, req, x);
    }
    RunInduction(env, req, inv, Start(env, req));
  }

  /** The requests of a run, all fields of each, and what holds whenever one is made. */
  ghost predicate AllCarry(env: Env, req: RunRequest, bs: seq<Block>, f: Machine)
    requires ToolsRegistered(env, req)
  {
    && Transcribes(req, bs, f)
    && forall n :: 0 <= n < |f.requests| ==>
         && n <= |bs| && Carries(env, req, bs, f.requests[n], n)
         && CanServe(env, req) && env.sizer(f.requests[n].what.messages) <= req.maxContextTokens
  }

  /** Whatever provider, tools and clock do, every request of a run carries what the run was asked for. */
  lemma {:induction false} RequestsCarry(env: Env, req: RunRequest)
    requires ValidRequest(req) && ToolsRegistered(env, req)
    ensures exists bs :: AllCarry(env, req, bs, Final(env, req))
  {
    var f := Final(env, req);
    var bs := FinalFull(env, req);
    FinalServable(env, req);
    forall n | 0 <= n < |f.requests| ensures n <= |bs| && Carries(env, req, bs, f.requests[n], n) {
      assert RequestAt(env, req, bs, f, n);
      RequestCarries(env, req, bs, f.requests[n], n, f.readings);
    }
    assert AllCarry(env, req, bs, f);
  }

  /** Requests are never taken back. */
  lemma {:induction false} RequestStays(env: Env, req: RunRequest, m: Machine)
    requires ToolsRegistered(env, req) && CallsAllowed(req, m.phase) && m.requests != []
    ensures RunFrom(env, req, m).requests != []
  {
    ghost var inv := (x: Machine) => CallsAllowed(req, x.phase) && x.requests != [];
    forall x | inv(x) && !x.phase.Done? ensures inv(Step(env, req, x)) {
      StepAppends(env, req, x);
    }
    RunInduction(env, req, inv, m);
  }

  /** The run ended before it asked the provider anything, for the given reason. */
  predicate NothingAsked(f: Machine, status: RunStatus, reason: StopReason, code: Option<string>) {
    && f.requests == [] && f.invocations == [] && f.phase.Done?
    && var r := f.phase.result;
       && r.status == status && r.stopReason == reason && r.errorCode == code
       && r.iterations == 0 && r.responses == [] && r.executions == [] && r.finalResponse.None?
  }

  /**
   The first request is made exactly when every allowed tool is registered, the context fits,
   time is left and the provider can serve the run; the first of these that fails decides
   how the run ends instead.
   */
  lemma {:induction false} FirstRequestIff(env: Env, req: RunRequest)
    requires ValidRequest(req)
    ensures var f := Final(env, req);
      if exists name :: name in req.allowedTools && name !in env.registry then
        NothingAsked(f, Failed, InvalidToolConfiguration, Some("tool_not_found"))
      else if env.sizer(req.messages) > req.maxContextTokens then NothingAsked(f, Stopped, ContextBudgetExceeded, None)
      else if env.clock(1) >= env.clock(0) + req.timeout then NothingAsked(f, Stopped, Timeout, None)
      else if !env.textChat || (req.allowedTools != [] && !env.toolCalling) then
        NothingAsked(f, Failed, ProviderError, Some("unsupported_capability"))
      else f.requests != []
  {
    if ToolsRegistered(env, req) {
      FirstStepDecides(env, req);
    } else {
      FinalUnregistered(env, req);
      var i :| 0 <= i < |req.allowedTools| && req.allowedTools[i] !in env.registry;
      assert req.allowedTools[i] in req.allowedTools;
    }
  }

  lemma {:induction false} FirstStepDecides(env: Env, req: RunRequest)
    requires ValidRequest(req) && ToolsRegistered(env, req)
    ensures var f := Final(env, req);
      if env.sizer(req.messages) > req.maxContextTokens then NothingAsked(f, Stopped, ContextBudgetExceeded, None)
      else if env.clock(1) >= env.clock(0) + req.timeout then NothingAsked(f, Stopped, Timeout, None)
      else if !env.textChat || (req.allowedTools != [] && !env.toolCalling) then
        NothingAsked(f, Failed, ProviderError, Some("unsupported_capability"))
      else f.requests != []
  {
    var m := Start(env, req);
    var m' := Step(env, req, m);
    assert RunFrom(env, req, m) == RunFrom(env, req, m');
    if m'.requests != [] {
      RequestStays(env, req, m');
    }
  }

  // ----- the transcript -----

  predicate ShowsResponse(m: ChatMessage, r: ChatResponse) {
    && m.role.Assistant? && m.content == r.content && m.toolCalls == r.toolCalls && m.reasoning == r.reasoning
    && m.toolCallId.None? && m.name.None?
  }

  /** A tool message answers a call under its id and name, with a content that reads as the tool's result. */
  ghost predicate ShowsAnswer(m: ChatMessage, call: ToolCall, result: ToolResult) {
    && m.role.Tool? && m.toolCallId == Some(call.id) && m.name == Some(call.name)
    && m.content.Some? && m.toolCalls == [] && m.reasoning.None?
    && forall data :: (result.data.Some? ==> Denotes(result.data.value, data)) ==> ReadsAs(m.content.value, result, data)
  }

  predicate ReadsAs(content: string, result: ToolResult, data: Value) {
    var v := ReadJson(content);
    v.Some? && ShowsToolResult(v.value, result, data)
  }

  lemma {:induction false} AnswerShows(e: ToolExecutionRecord, call: ToolCall)
    requires AnswersCall(e, call)
    ensures ShowsAnswer(ToolMessage(e), call, e.result)
  {
    forall data | e.result.data.Some? ==> Denotes(e.result.data.value, data)
      ensures ReadsAs(ToolMessage(e).content.value, e.result, data)
    {
      ToolResultReadsBack(e.result, data);
    }
  }

  ghost predicate ShowsBlock(shown: seq<ChatMessage>, b: Block)
    requires Answers(b)
  {
    && |shown| == 1 + |b.records| && ShowsResponse(shown[0], b.response)
    && forall j :: 0 <= j < |b.records| ==> ShowsAnswer(shown[1 + j], b.response.toolCalls[j], b.records[j].result)
  }

  /** A block shows its response and, in call order, an answer to each call that ran. */
  lemma {:induction false} BlockShows(bs: seq<Block>, b: Block)
    requires Answers(b)
    ensures exists shown :: Flatten(bs + [b]) == Flatten(bs) + shown && ShowsBlock(shown, b)
  {
    AppendBlock(bs, b);
    var answers := ToolMessages(b.records);
    var shown := [AssistantMessage(b.response)] + answers;
    forall j | 0 <= j < |b.records| ensures ShowsAnswer(shown[1 + j], b.response.toolCalls[j], b.records[j].result) {
      assert shown[1 + j] == answers[j] == ToolMessage(b.records[j]);
      assert AnswersCall(b.records[j], b.response.toolCalls[j]);
      AnswerShows(b.records[j], b.response.toolCalls[j]);
    }
    assert ShowsBlock(shown, b);
  }

  function SumOf(rs: seq<ChatResponse>, measure: TokenUsage -> nat): nat {
    if rs == [] then 0 else SumOf(Init(rs), measure) + measure(Last(rs).usage)
  }

  /** Each kind of token is summed over the responses by itself. */
  lemma {:induction false} UsageIsSums(rs: seq<ChatResponse>)
    ensures SumUsage(rs).inputTokens == SumOf(rs, (u: TokenUsage) => u.inputTokens)
    ensures SumUsage(rs).outputTokens == SumOf(rs, (u: TokenUsage) => u.outputTokens)
    ensures SumUsage(rs).cachedInputTokens == SumOf(rs, (u: TokenUsage) => u.cachedInputTokens)
  {
    if rs != [] {
      UsageIsSums(Init(rs));
    }
  }

  /** The usage of a run, kind by kind. */
  lemma {:induction false} RunUsage(env: Env, req: RunRequest)
    requires ValidRequest(req)
    ensures var r := Final(env, req).phase.result;
      && r.usage.inputTokens == SumOf(r.responses, (u: TokenUsage) => u.inputTokens)
      && r.usage.outputTokens == SumOf(r.responses, (u: TokenUsage) => u.outputTokens)
      && r.usage.cachedInputTokens == SumOf(r.responses, (u: TokenUsage) => u.cachedInputTokens)
  {
    RunBounds(env, req);
    UsageIsSums(Final(env, req).phase.result.responses);
  }

  // ----- tools and signals -----

  /** Execution j is one of the block of the iteration its invocation names. */
  predicate PlacedAt(bs: seq<Block>, m: Machine, j: nat)
    requires j < |m.invocations|
  {
    var i := m.invocations[j].what.iteration;
    1 <= i <= |bs| && |Records(bs[..i - 1])| <= j < |Records(bs[..i])|
  }

  predicate Placed(bs: seq<Block>, m: Machine) {
    forall j :: 0 <= j < |m.invocations| ==> PlacedAt(bs, m, j)
  }

  /** Growing the block list moves no execution to another block. */
  lemma {:induction false} PlacedCarryOver(bs: seq<Block>, m: Machine, m': Machine, j: nat)
    requires j < |m.invocations| && m.invocations <= m'.invocations && PlacedAt(bs, m, j)
    ensures PlacedAt(Grow(bs, m, m'), m', j)
  {
    var i, bs' := m.invocations[j].what.iteration, Grow(bs, m, m');
    assert bs'[..i - 1] == bs[..i - 1];
    if bs'[..i] != bs[..i] {
      assert bs == Init(bs) + [Last(bs)];
      AppendBlock(Init(bs), Last(bs));
      AppendBlock(Init(bs), Last(bs'));
      assert bs'[..i] == Init(bs) + [Last(bs')] && bs[..i] == bs;
    }
  }

  lemma {:induction false} ExecutingInvokes(env: Env, req: RunRequest, m: Machine)
    requires ToolsRegistered(env, req) && CallsAllowed(req, m.phase) && m.phase.Executing?
    ensures var m' := Step(env, req, m);
      && |m'.invocations| - |m.invocations| == |m'.executions| - |m.executions| <= 1
      && m'.responses == m.responses
      && (|m'.invocations| > |m.invocations| ==> m'.invocations[|m.invocations|].what.iteration == m.phase.iteration)
  {
  }

  lemma {:induction false} StepPlaced(env: Env, req: RunRequest, bs: seq<Block>, m: Machine)
    requires ToolsRegistered(env, req) && Full(env, req, bs, m) && Placed(bs, m) && !m.phase.Done?
    ensures Placed(Grow(bs, m, Step(env, req, m)), Step(env, req, m))
  {
    StepAppends(env, req, m);
    if m.phase.Executing? {
      ExecutingInvokes(env, req, m);
    }
    KeepsPlaced(bs, m, Step(env, req, m));
  }

  lemma {:induction false} KeepsPlaced(bs: seq<Block>, m: Machine, m': Machine)
    requires Placed(bs, m) && m.invocations <= m'.invocations
    requires m'.invocations == m.invocations
      || (&& bs != [] && m.executions == Records(bs) && |m.invocations| == |m.executions|
          && m'.responses == m.responses && |m'.executions| == |m.executions| + 1 == |m'.invocations|
          && m'.invocations[|m.invocations|].what.iteration == |bs|)
    ensures Placed(Grow(bs, m, m'), m')
  {
    forall j | 0 <= j < |m'.invocations| ensures PlacedAt(Grow(bs, m, m'), m', j) {
      if j < |m.invocations| {
        PlacedCarryOver(bs, m, m', j);
      } else {
        NewPlaced(bs, m, m');
      }
    }
  }

  lemma {:induction false} NewPlaced(bs: seq<Block>, m: Machine, m': Machine)
    requires bs != [] && m.executions == Records(bs) && |m.invocations| == |m.executions|
    requires m'.responses == m.responses && |m'.executions| == |m.executions| + 1 == |m'.invocations|
    requires m'.invocations[|m.invocations|].what.iteration == |bs|
    ensures PlacedAt(Grow(bs, m, m'), m', |m.invocations|)
  {
    var before, b := Init(bs), Last(bs);
    assert bs == before + [b];
    var bs' := Grow(bs, m, m');
    AppendBlock(before, b);
    AppendBlock(before, Last(bs'));
    assert bs' == before + [Last(bs')] && bs'[..|bs|] == bs' && bs'[..|bs| - 1] == before;
  }

  lemma {:induction false} FinalPlaced(env: Env, req: RunRequest) returns (bs: seq<Block>)
    requires ValidRequest(req) && ToolsRegistered(env, req)
    ensures Full(env, req, bs, Final(env, req)) && Placed(bs, Final(env, req))
  {
    ghost var inv := (x: Machine) => exists bs :: Full(env, req, bs, x) && Placed(bs, x);
    forall x | inv(x) && !x.phase.Done? ensures CallsAllowed(req, x.phase) && inv(Step(env, req, x)) {
      var bs :| Full(env, req, bs, x) && Placed(bs, x);
      StepKeepsFull(env, req, bs, x);
      StepPlaced(env, req, bs, x);
    }
    StartFull(env, req);
    assert Placed([], Start(env, req));
    RunInduction(env, req, inv, Start(env, req));
    bs :| Full(env, req, bs, Final(env, req)) && Placed(bs, Final(env, req));
  }

  /** The tool's own failure code is published only if it is one of the seven known ones. */
  predicate PublishedFailure(r: ToolResult, code: Option<string>) {
    && (code.None? <==> r.success)
    && (code.Some? && code.value != "tool_failed" ==>
          && r.error.Some? && code.value == r.error.value.code
          && (code.value == "circuit_open" || code.value == "fallback_failed" || code.value == "invalid_tool_input"
              || code.value == "invalid_tool_output" || code.value == "retry_budget_exhausted"
              || code.value == "tool_execution_failed" || code.value == "tool_not_found"))
    && (code == Some("tool_failed") ==>
          r.error.None? || (r.error.value.code != "circuit_open" && r.error.value.code != "fallback_failed"
                            && r.error.value.code != "invalid_tool_input" && r.error.value.code != "invalid_tool_output"
                            && r.error.value.code != "retry_budget_exhausted"
                            && r.error.value.code != "tool_execution_failed" && r.error.value.code != "tool_not_found"))
  }

  predicate ShowsStart(env: Env, s: Signal, v: ToolInvocation, ordinal: nat)
    requires v.name in env.registry
  {
    && s.ToolCallStarted? && s.toolName == env.registry[v.name].name && s.toolVersion == env.registry[v.name].version
    && s.ordinal == ordinal && s.iteration == v.iteration
  }

  predicate ShowsResult(s: Signal, r: ToolResult, ordinal: nat) {
    && s.ToolCallCompleted? && s.toolName == r.toolName && s.toolVersion == r.toolVersion && s.ordinal == ordinal
    && s.success == r.success && s.attempts == r.attempts && s.cached == r.cached && s.fallbackUsed == r.fallbackUsed
    && PublishedFailure(r, s.failureCode)
  }

  lemma {:induction false} CompletedShows(r: ToolResult, ordinal: nat)
    ensures ShowsResult(CompletedSignal(r, ordinal), r, ordinal)
  {
  }

  /** The runtime was asked for the call that is recorded, with the time left, and its answer is the result. */
  predicate Invoked(env: Env, req: RunRequest, issued: Issued<ToolInvocation>, e: ToolExecutionRecord, j: nat) {
    var v := issued.what;
    && v.name == e.toolName && v.arguments == e.arguments && v.toolCallId == e.toolCallId
    && TimeLeft(env, req, issued.reading, v.timeoutCap)
    && e.result == env.runtime(j, v)
  }

  ghost predicate ToolShown(env: Env, req: RunRequest, bs: seq<Block>, f: Machine, j: nat)
    requires j < |f.executions| == |f.invocations| && |f.signals| == 2 * |f.executions|
  {
    && PlacedAt(bs, f, j)
    && Invoked(env, req, f.invocations[j], f.executions[j], j)
    && f.invocations[j].what.name in env.registry
    && ShowsStart(env, f.signals[2 * j], f.invocations[j].what, j + 1)
    && ShowsResult(f.signals[2 * j + 1], f.executions[j].result, j + 1)
  }

  ghost predicate AllShown(env: Env, req: RunRequest, bs: seq<Block>, f: Machine) {
    && Transcribes(req, bs, f)
    && |f.invocations| == |f.executions| && |f.signals| == 2 * |f.executions|
    && forall j :: 0 <= j < |f.executions| ==> ToolShown(env, req, bs, f, j)
  }

  /** Every execution of a run: the iteration it belongs to, its invocation and its two signals, field by field. */
  lemma {:induction false} ToolsShown(env: Env, req: RunRequest)
    requires ValidRequest(req) && ToolsRegistered(env, req)
    ensures exists bs :: AllShown(env, req, bs, Final(env, req))
  {
    var f := Final(env, req);
    var bs := FinalPlaced(env, req);
    forall j | 0 <= j < |f.executions| ensures ToolShown(env, req, bs, f, j) {
      assert ToolAt(env, req, f, j);
      assert PlacedAt(bs, f, j);
      CompletedShows(f.executions[j].result, j + 1);
    }
    assert AllShown(env, req, bs, f);
  }

  // ----- repeated calls -----

  /** The same tool with the same canonical arguments. */
  predicate SameCall(name: string, arguments: Arguments, name': string, arguments': Arguments) {
    name == name' && arguments.canonicalJson == arguments'.canonicalJson
  }

  /** No execution repeats the tool and the canonical arguments of another. */
  lemma {:induction false} NoExecutionRepeats(env: Env, req: RunRequest)
    requires ValidRequest(req)
    ensures var es := Final(env, req).phase.result.executions;
      forall i, j :: 0 <= i < j < |es| ==> !SameCall(es[i].toolName, es[i].arguments, es[j].toolName, es[j].arguments)
  {
    ToolsRunAtMostOnce(env, req);
    var es := Final(env, req).phase.result.executions;
    forall i, j | 0 <= i < j < |es| ensures !SameCall(es[i].toolName, es[i].arguments, es[j].toolName, es[j].arguments) {
      assert RecordSignature(es[i]) != RecordSignature(es[j]);
    }
  }

  /** Call i of the batch repeats an execution of the run, or an earlier call of the batch. */
  predicate Repeats(es: seq<ToolExecutionRecord>, calls: seq<ToolCall>, i: nat)
    requires i < |calls|
  {
    var c := calls[i];
    || (exists k :: 0 <= k < |es| && SameCall(es[k].toolName, es[k].arguments, c.name, c.arguments))
    || (exists k :: 0 <= k < i && SameCall(calls[k].name, calls[k].arguments, c.name, c.arguments))
  }

  /** A run stops on a repeated call only if the first refused call of the last response is one. */
  predicate StoppedOnRepeat(req: RunRequest, r: RunResult) {
    && r.responses != []
    && var calls := Last(r.responses).toolCalls;
       exists i :: 0 <= i < |calls| && calls[i].name in req.allowedTools && Repeats(r.executions, calls, i)
         && forall k :: 0 <= k < i ==> calls[k].name in req.allowedTools && !Repeats(r.executions, calls, k)
  }

  /** A run fails on a tool only if the first refused call of the last response names one that is not allowed. */
  predicate FailedOnTool(req: RunRequest, r: RunResult) {
    && r.responses != []
    && var calls := Last(r.responses).toolCalls;
       exists i :: 0 <= i < |calls| && calls[i].name !in req.allowedTools
         && forall k :: 0 <= k < i ==> calls[k].name in req.allowedTools && !Repeats(r.executions, calls, k)
  }

  lemma {:induction false} RepeatsMeans(es: seq<ToolExecutionRecord>, calls: seq<ToolCall>, i: nat)
    requires i < |calls|
    ensures Repeats(es, calls, i) <==> CallSignature(calls[i]) in Signatures(es) + CallSignatures(calls[..i])
  {
    var c := calls[i];
    if CallSignature(c) in Signatures(es) {
      var e :| e in es && RecordSignature(e) == CallSignature(c);
      var k :| 0 <= k < |es| && es[k] == e;
      assert SameCall(es[k].toolName, es[k].arguments, c.name, c.arguments);
    } else if CallSignature(c) in CallSignatures(calls[..i]) {
      var x :| x in calls[..i] && CallSignature(x) == CallSignature(c);
      var k :| 0 <= k < i && calls[..i][k] == x;
      assert SameCall(calls[k].name, calls[k].arguments, c.name, c.arguments);
    }
    if k :| 0 <= k < |es| && SameCall(es[k].toolName, es[k].arguments, c.name, c.arguments) {
      assert es[k] in es && RecordSignature(es[k]) == CallSignature(c);
    } else if k :| 0 <= k < i && SameCall(calls[k].name, calls[k].arguments, c.name, c.arguments) {
      assert calls[..i][k] == calls[k] && calls[k] in calls[..i];
    }
  }

  lemma {:induction false} AdmissibleBefore(req: RunRequest, es: seq<ToolExecutionRecord>, calls: seq<ToolCall>, i: nat)
    requires i <= |calls| && Admissible(req.allowedTools, Signatures(es), calls[..i])
    ensures forall k :: 0 <= k < i ==> calls[k].name in req.allowedTools && !Repeats(es, calls, k)
  {
    forall k | 0 <= k < i ensures calls[k].name in req.allowedTools && !Repeats(es, calls, k) {
      assert calls[..i][k] == calls[k];
      RepeatsMeans(es, calls, k);
      forall j | 0 <= j < k ensures CallSignature(calls[j]) != CallSignature(calls[k]) {
        assert calls[..i][j] == calls[j];
      }
    }
  }

  /** Which call a refused batch was refused for. */
  lemma {:induction false} RefusalShown(env: Env, req: RunRequest)
    requires ValidRequest(req)
    ensures var r := Final(env, req).phase.result;
      && (r.stopReason.DuplicateToolCall? ==> StoppedOnRepeat(req, r))
      && (r.stopReason.ToolNotAllowed? ==> FailedOnTool(req, r))
  {
    EveryExitExplained(env, req);
    var f := Final(env, req);
    var r := f.phase.result;
    if r.stopReason.DuplicateToolCall? || r.stopReason.ToolNotAllowed? {
      var bs :| GrammarOfRun(req, bs, f) && ExitCause(env, req, bs, f, r);
      BatchShown(req, bs, f, r);
    }
  }

  lemma {:induction false} BatchShown(req: RunRequest, bs: seq<Block>, f: Machine, r: RunResult)
    requires bs != [] && r.responses == Responses(bs) && r.executions == f.executions
    requires r.stopReason.DuplicateToolCall? ==>
      exists i :: FirstRepeated(req, Signatures(f.executions), Last(bs).response.toolCalls, i)
    requires r.stopReason.ToolNotAllowed? ==>
      exists i :: FirstDisallowed(req, Signatures(f.executions), Last(bs).response.toolCalls, i)
    ensures r.stopReason.DuplicateToolCall? ==> StoppedOnRepeat(req, r)
    ensures r.stopReason.ToolNotAllowed? ==> FailedOnTool(req, r)
  {
    var calls := Last(bs).response.toolCalls;
    assert Last(r.responses) == Last(bs).response;
    if r.stopReason.DuplicateToolCall? {
      var i :| FirstRepeated(req, Signatures(f.executions), calls, i);
      AdmissibleBefore(req, f.executions, calls, i);
      RepeatsMeans(f.executions, calls, i);
    } else if r.stopReason.ToolNotAllowed? {
      var i :| FirstDisallowed(req, Signatures(f.executions), calls, i);
      AdmissibleBefore(req, f.executions, calls, i);
    }
  }

  /** The terminal signal shows the result, with a fixed code per failing reason instead of the provider's own. */
  lemma {:induction false} TerminalShows(env: Env, req: RunRequest)
    requires ValidRequest(req)
    ensures var r := Final(env, req).phase.result; SafeAgentErrorCode(r.status, r.stopReason).Some?
    ensures var r := Final(env, req).phase.result; var s := TerminalSignal(r);
      && s.AgentRunTerminated? && s.status == r.status && s.stopReason == r.stopReason && s.iterations == r.iterations
      && (s.errorCode == Some("provider_failed") <==> r.stopReason.ProviderError?)
      && (s.errorCode == Some("tool_not_allowed") <==> r.stopReason.ToolNotAllowed?)
      && (s.errorCode == Some("tool_not_found") <==> r.stopReason.InvalidToolConfiguration?)
      && (s.errorCode.None? <==> !r.status.Failed?)
  {
    TerminalSignalValid(env, req);
    EveryExitExplained(env, req);
  }
}
